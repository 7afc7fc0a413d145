/** The algebra behind the SVG generator's Matrix: a 3x3 homogeneous
    transform over exact reals, and its nine-slot row-major layout. */
module Affine {

  /** A 3x3 matrix, one field per slot, in row-major order:
        | scaleX  skewX   transX |
        | skewY   scaleY  transY |
        | persp0  persp1  persp2 | */
  datatype Mat = Mat(scaleX: real, skewX: real, transX: real,
                     skewY: real, scaleY: real, transY: real,
                     persp0: real, persp1: real, persp2: real)

  // ---------------------------------------------------------------------
  // The nine-slot layout used by getValues and setValues.

  /** Exactly nine values. */
  type Nine = s: seq<real> | |s| == 9 witness [0.0, 0.0, 0.0, 0.0, 0.0, 0.0, 0.0, 0.0, 0.0]

  const ScaleXSlot: nat := 0
  const SkewXSlot: nat := 1
  const TransXSlot: nat := 2
  const SkewYSlot: nat := 3
  const ScaleYSlot: nat := 4
  const TransYSlot: nat := 5
  const Persp0Slot: nat := 6
  const Persp1Slot: nat := 7
  const Persp2Slot: nat := 8

  /** The matrix laid out in its nine slots. */
  function Slots(m: Mat): Nine {
    [m.scaleX, m.skewX, m.transX, m.skewY, m.scaleY, m.transY, m.persp0, m.persp1, m.persp2]
  }

  /** The matrix that the first nine values of s describe; later values are ignored. */
  function FromSlots(s: seq<real>): Mat
    requires |s| >= 9
  {
    Mat(s[ScaleXSlot], s[SkewXSlot], s[TransXSlot], s[SkewYSlot], s[ScaleYSlot],
        s[TransYSlot], s[Persp0Slot], s[Persp1Slot], s[Persp2Slot])
  }

  /** Reading back what was laid out gives the same matrix. */
  lemma FromSlotsOfSlots(m: Mat)
    ensures FromSlots(Slots(m)) == m
  {
  }

  /** Laying out what was read gives back the first nine values. */
  lemma SlotsOfFromSlots(s: seq<real>)
    requires |s| >= 9
    ensures Slots(FromSlots(s)) == s[..9]
  {
    var t := Slots(FromSlots(s));
    assert t[0] == s[0] && t[1] == s[1] && t[2] == s[2];
    assert t[3] == s[3] && t[4] == s[4] && t[5] == s[5];
    assert t[6] == s[6] && t[7] == s[7] && t[8] == s[8];
  }

  /** Two buffers describe the same matrix exactly when their first nine
      values agree. */
  lemma FromSlotsSame(s: seq<real>, t: seq<real>)
    requires |s| >= 9 && |t| >= 9
    ensures FromSlots(s) == FromSlots(t) <==> s[..9] == t[..9]
  {
    SlotsOfFromSlots(s);
    SlotsOfFromSlots(t);
    if s[..9] == t[..9] {
      assert forall k | 0 <= k < 9 :: s[k] == s[..9][k] == t[..9][k] == t[k];
    }
  }

  // ---------------------------------------------------------------------
  // The fixed matrices.

  /** The initial value of a freshly constructed matrix. */
  function Identity(): Mat {
    Mat(1.0, 0.0, 0.0,
        0.0, 1.0, 0.0,
        0.0, 0.0, 1.0)
  }

  /** What `reset` writes: skew Y (slot 3) is 1 and scale Y (slot 4) is 0. */
  function ResetPattern(): Mat {
    Mat(1.0, 0.0, 0.0,
        1.0, 0.0, 0.0,
        0.0, 0.0, 1.0)
  }

  /** The multiplication kernel of `preConcat`, slot by slot: m * o. */
  function Mul(m: Mat, o: Mat): Mat {
    Mat(m.scaleX * o.scaleX + m.skewX * o.skewY + m.transX * o.persp0,
        m.scaleX * o.skewX + m.skewX * o.scaleY + m.transX * o.persp1,
        m.scaleX * o.transX + m.skewX * o.transY + m.transX * o.persp2,
        m.skewY * o.scaleX + m.scaleY * o.skewY + m.transY * o.persp0,
        m.skewY * o.skewX + m.scaleY * o.scaleY + m.transY * o.persp1,
        m.skewY * o.transX + m.scaleY * o.transY + m.transY * o.persp2,
        m.persp0 * o.scaleX + m.persp1 * o.skewY + m.persp2 * o.persp0,
        m.persp0 * o.skewX + m.persp1 * o.scaleY + m.persp2 * o.persp1,
        m.persp0 * o.transX + m.persp1 * o.transY + m.persp2 * o.persp2)
  }

  /** The kernel read off three buffers: c holds a times b, slot by slot,
      exactly when the matrices they describe multiply that way. */
  lemma MulOfSlots(a: seq<real>, b: seq<real>, c: seq<real>)
    requires |a| >= 9 && |b| >= 9 && |c| >= 9
    requires c[ScaleXSlot] == a[ScaleXSlot] * b[ScaleXSlot] + a[SkewXSlot] * b[SkewYSlot] + a[TransXSlot] * b[Persp0Slot]
    requires c[SkewXSlot] == a[ScaleXSlot] * b[SkewXSlot] + a[SkewXSlot] * b[ScaleYSlot] + a[TransXSlot] * b[Persp1Slot]
    requires c[TransXSlot] == a[ScaleXSlot] * b[TransXSlot] + a[SkewXSlot] * b[TransYSlot] + a[TransXSlot] * b[Persp2Slot]
    requires c[SkewYSlot] == a[SkewYSlot] * b[ScaleXSlot] + a[ScaleYSlot] * b[SkewYSlot] + a[TransYSlot] * b[Persp0Slot]
    requires c[ScaleYSlot] == a[SkewYSlot] * b[SkewXSlot] + a[ScaleYSlot] * b[ScaleYSlot] + a[TransYSlot] * b[Persp1Slot]
    requires c[TransYSlot] == a[SkewYSlot] * b[TransXSlot] + a[ScaleYSlot] * b[TransYSlot] + a[TransYSlot] * b[Persp2Slot]
    requires c[Persp0Slot] == a[Persp0Slot] * b[ScaleXSlot] + a[Persp1Slot] * b[SkewYSlot] + a[Persp2Slot] * b[Persp0Slot]
    requires c[Persp1Slot] == a[Persp0Slot] * b[SkewXSlot] + a[Persp1Slot] * b[ScaleYSlot] + a[Persp2Slot] * b[Persp1Slot]
    requires c[Persp2Slot] == a[Persp0Slot] * b[TransXSlot] + a[Persp1Slot] * b[TransYSlot] + a[Persp2Slot] * b[Persp2Slot]
    ensures FromSlots(c) == Mul(FromSlots(a), FromSlots(b))
  {
    var m, o, n := FromSlots(a), FromSlots(b), FromSlots(c);
    assert n.scaleX == Mul(m, o).scaleX;
    assert n.skewX == Mul(m, o).skewX;
    assert n.transX == Mul(m, o).transX;
    assert n.skewY == Mul(m, o).skewY;
    assert n.scaleY == Mul(m, o).scaleY;
    assert n.transY == Mul(m, o).transY;
    assert n.persp0 == Mul(m, o).persp0;
    assert n.persp1 == Mul(m, o).persp1;
    assert n.persp2 == Mul(m, o).persp2;
  }

  /** The transform `postTranslate` builds. */
  function Translation(dx: real, dy: real): Mat {
    Mat(1.0, 0.0, dx,
        0.0, 1.0, dy,
        0.0, 0.0, 1.0)
  }

  /** The transform `postScale` builds. */
  function Scaling(sx: real, sy: real): Mat {
    Mat(sx, 0.0, 0.0,
        0.0, sy, 0.0,
        0.0, 0.0, 1.0)
  }

  /** The transform `postRotate` builds from the cosine c and the sine s of
      the angle and the pivot (px, py). */
  function Rotation(c: real, s: real, px: real, py: real): Mat {
    Mat(c, -s, -px * c + py * s + px,
        s, c, -px * s - py * c + py,
        0.0, 0.0, 1.0)
  }

  // ---------------------------------------------------------------------
  // An independent reference for the product: entry (i, j) is the dot
  // product of row i of the left operand with column j of the right one.

  function Dot(u: seq<real>, v: seq<real>): real
    requires |u| == |v|
    decreases |u|
  {
    if |u| == 0 then 0.0 else u[0] * v[0] + Dot(u[1..], v[1..])
  }

  function Row(m: Mat, i: nat): seq<real>
    requires i < 3
  {
    if i == 0 then [m.scaleX, m.skewX, m.transX]
    else if i == 1 then [m.skewY, m.scaleY, m.transY]
    else [m.persp0, m.persp1, m.persp2]
  }

  function Column(m: Mat, j: nat): seq<real>
    requires j < 3
  {
    if j == 0 then [m.scaleX, m.skewY, m.persp0]
    else if j == 1 then [m.skewX, m.scaleY, m.persp1]
    else [m.transX, m.transY, m.persp2]
  }

  /** Entry (i, j) of the textbook product: row i of m times column j of o. */
  function Entry(m: Mat, o: Mat, i: nat, j: nat): real
    requires i < 3 && j < 3
  {
    Dot(Row(m, i), Column(o, j))
  }

  /** The textbook matrix product. */
  function Product(m: Mat, o: Mat): Mat {
    Mat(Entry(m, o, 0, 0), Entry(m, o, 0, 1), Entry(m, o, 0, 2),
        Entry(m, o, 1, 0), Entry(m, o, 1, 1), Entry(m, o, 1, 2),
        Entry(m, o, 2, 0), Entry(m, o, 2, 1), Entry(m, o, 2, 2))
  }

  lemma {:induction false} DotOfThree(u: seq<real>, v: seq<real>)
    requires |u| == 3 && |v| == 3
    ensures Dot(u, v) == u[0] * v[0] + u[1] * v[1] + u[2] * v[2]
  {
    assert u[1..][1..] == u[2..] && v[1..][1..] == v[2..];
    assert u[2..][1..] == [] && v[2..][1..] == [];
    calc {
      Dot(u, v);
      u[0] * v[0] + Dot(u[1..], v[1..]);
      u[0] * v[0] + (u[1] * v[1] + Dot(u[2..], v[2..]));
      u[0] * v[0] + (u[1] * v[1] + (u[2] * v[2] + Dot(u[2..][1..], v[2..][1..])));
    }
  }

  lemma EntryOfThree(m: Mat, o: Mat, i: nat, j: nat)
    requires i < 3 && j < 3
    ensures var r, c := Row(m, i), Column(o, j);
            Entry(m, o, i, j) == r[0] * c[0] + r[1] * c[1] + r[2] * c[2]
  {
    DotOfThree(Row(m, i), Column(o, j));
  }

  /** The slot-by-slot kernel computes the row-by-column product. */
  lemma MulIsProduct(m: Mat, o: Mat)
    ensures Mul(m, o) == Product(m, o)
  {
    var n, p := Mul(m, o), Product(m, o);
    assert n.scaleX == p.scaleX by { EntryOfThree(m, o, 0, 0); }
    assert n.skewX == p.skewX by { EntryOfThree(m, o, 0, 1); }
    assert n.transX == p.transX by { EntryOfThree(m, o, 0, 2); }
    assert n.skewY == p.skewY by { EntryOfThree(m, o, 1, 0); }
    assert n.scaleY == p.scaleY by { EntryOfThree(m, o, 1, 1); }
    assert n.transY == p.transY by { EntryOfThree(m, o, 1, 2); }
    assert n.persp0 == p.persp0 by { EntryOfThree(m, o, 2, 0); }
    assert n.persp1 == p.persp1 by { EntryOfThree(m, o, 2, 1); }
    assert n.persp2 == p.persp2 by { EntryOfThree(m, o, 2, 2); }
  }

  // ---------------------------------------------------------------------
  // What a matrix does to points.

  /** A point in homogeneous coordinates (x, y, w). */
  datatype Point = Point(x: real, y: real, w: real)

  /** The matrix applied to a column vector. */
  function Apply(m: Mat, p: Point): Point {
    Point(m.scaleX * p.x + m.skewX * p.y + m.transX * p.w,
          m.skewY * p.x + m.scaleY * p.y + m.transY * p.w,
          m.persp0 * p.x + m.persp1 * p.y + m.persp2 * p.w)
  }

  // Three small facts of real arithmetic, so that the regrouping below is
  // linear once they are instantiated.

  lemma DistributeRight(a: real, b: real, c: real, x: real)
    ensures (a + b + c) * x == a * x + b * x + c * x
  {
  }

  lemma DistributeLeft(x: real, a: real, b: real, c: real)
    ensures x * (a + b + c) == x * a + x * b + x * c
  {
  }

  lemma Reassociate(a: real, b: real, c: real)
    ensures (a * b) * c == a * (b * c)
  {
  }

  /** One coordinate of (m * o) p, regrouped: (n0, n1, n2) is row (r0, r1, r2)
      of m times o, whose rows are (a0, a1, a2), (b0, b1, b2), (d0, d1, d2),
      and (qx, qy, qw) is o applied to (x, y, w). */
  lemma Regroup(r0: real, r1: real, r2: real,
                a0: real, a1: real, a2: real, b0: real, b1: real, b2: real,
                d0: real, d1: real, d2: real, x: real, y: real, w: real,
                n0: real, n1: real, n2: real, qx: real, qy: real, qw: real)
    requires n0 == r0 * a0 + r1 * b0 + r2 * d0
    requires n1 == r0 * a1 + r1 * b1 + r2 * d1
    requires n2 == r0 * a2 + r1 * b2 + r2 * d2
    requires qx == a0 * x + a1 * y + a2 * w
    requires qy == b0 * x + b1 * y + b2 * w
    requires qw == d0 * x + d1 * y + d2 * w
    ensures n0 * x + n1 * y + n2 * w == r0 * qx + r1 * qy + r2 * qw
  {
    DistributeRight(r0 * a0, r1 * b0, r2 * d0, x);
    DistributeRight(r0 * a1, r1 * b1, r2 * d1, y);
    DistributeRight(r0 * a2, r1 * b2, r2 * d2, w);
    DistributeLeft(r0, a0 * x, a1 * y, a2 * w);
    DistributeLeft(r1, b0 * x, b1 * y, b2 * w);
    DistributeLeft(r2, d0 * x, d1 * y, d2 * w);
    Reassociate(r0, a0, x); Reassociate(r0, a1, y); Reassociate(r0, a2, w);
    Reassociate(r1, b0, x); Reassociate(r1, b1, y); Reassociate(r1, b2, w);
    Reassociate(r2, d0, x); Reassociate(r2, d1, y); Reassociate(r2, d2, w);
  }

  /** Row i of m * o applied to p is row i of m applied to o p. */
  lemma ApplyMulX(m: Mat, o: Mat, p: Point)
    ensures Apply(Mul(m, o), p).x == Apply(m, Apply(o, p)).x
  {
    var n, q := Mul(m, o), Apply(o, p);
    Regroup(m.scaleX, m.skewX, m.transX, o.scaleX, o.skewX, o.transX,
            o.skewY, o.scaleY, o.transY, o.persp0, o.persp1, o.persp2, p.x, p.y, p.w,
            n.scaleX, n.skewX, n.transX, q.x, q.y, q.w);
  }

  lemma ApplyMulY(m: Mat, o: Mat, p: Point)
    ensures Apply(Mul(m, o), p).y == Apply(m, Apply(o, p)).y
  {
    var n, q := Mul(m, o), Apply(o, p);
    Regroup(m.skewY, m.scaleY, m.transY, o.scaleX, o.skewX, o.transX,
            o.skewY, o.scaleY, o.transY, o.persp0, o.persp1, o.persp2, p.x, p.y, p.w,
            n.skewY, n.scaleY, n.transY, q.x, q.y, q.w);
  }

  lemma ApplyMulW(m: Mat, o: Mat, p: Point)
    ensures Apply(Mul(m, o), p).w == Apply(m, Apply(o, p)).w
  {
    var n, q := Mul(m, o), Apply(o, p);
    Regroup(m.persp0, m.persp1, m.persp2, o.scaleX, o.skewX, o.transX,
            o.skewY, o.scaleY, o.transY, o.persp0, o.persp1, o.persp2, p.x, p.y, p.w,
            n.persp0, n.persp1, n.persp2, q.x, q.y, q.w);
  }

  /** Applying m * o is applying o first, then m. */
  lemma ApplyMul(m: Mat, o: Mat, p: Point)
    ensures Apply(Mul(m, o), p) == Apply(m, Apply(o, p))
  {
    ApplyMulX(m, o, p);
    ApplyMulY(m, o, p);
    ApplyMulW(m, o, p);
  }

  /** Two matrices that agree on the three unit vectors are equal: the images
      of the unit vectors are the columns. */
  lemma EqualOnUnitVectors(m: Mat, n: Mat)
    requires Apply(m, Point(1.0, 0.0, 0.0)) == Apply(n, Point(1.0, 0.0, 0.0))
    requires Apply(m, Point(0.0, 1.0, 0.0)) == Apply(n, Point(0.0, 1.0, 0.0))
    requires Apply(m, Point(0.0, 0.0, 1.0)) == Apply(n, Point(0.0, 0.0, 1.0))
    ensures m == n
  {
  }

  /** Composition by the kernel is associative, so a chain of post-operations
      is one product however it is grouped. */
  lemma MulAssociative(a: Mat, b: Mat, c: Mat)
    ensures Mul(Mul(a, b), c) == Mul(a, Mul(b, c))
  {
    forall p: Point ensures Apply(Mul(Mul(a, b), c), p) == Apply(Mul(a, Mul(b, c)), p) {
      ApplyMul(Mul(a, b), c, p);
      ApplyMul(a, b, Apply(c, p));
      ApplyMul(a, Mul(b, c), p);
      ApplyMul(b, c, p);
    }
    EqualOnUnitVectors(Mul(Mul(a, b), c), Mul(a, Mul(b, c)));
  }

  /** The identity is a unit of the kernel on both sides. */
  lemma IdentityIsUnit(m: Mat)
    ensures Mul(Identity(), m) == m && Mul(m, Identity()) == m
  {
  }

  // ---------------------------------------------------------------------
  // The reset pattern.

  /** The pattern `reset` writes is not the identity a new matrix starts as:
      they differ in slots 3 and 4, and nowhere else. */
  lemma ResetIsNotIdentity()
    ensures ResetPattern() != Identity()
    ensures ResetPattern() == Identity().(skewY := 1.0, scaleY := 0.0)
  {
  }

  /** The reset pattern sends every point onto the diagonal y == x, so it is
      not invertible, whereas the identity moves nothing. */
  lemma ResetCollapsesOntoDiagonal(p: Point)
    ensures Apply(ResetPattern(), p) == Point(p.x, p.x, p.w)
    ensures Apply(Identity(), p) == p
  {
  }

  /** Whatever a reset matrix is pre-concatenated with, rows 0 and 1 of the
      result agree. */
  lemma ResetKeepsRowsEqual(o: Mat)
    ensures Row(Mul(ResetPattern(), o), 0) == Row(Mul(ResetPattern(), o), 1)
  {
  }

  // ---------------------------------------------------------------------
  // The transforms the post-operations build.

  /** Translation moves an affine point by (dx, dy). */
  lemma TranslationMoves(dx: real, dy: real, p: Point)
    ensures Apply(Translation(dx, dy), p) == Point(p.x + dx * p.w, p.y + dy * p.w, p.w)
  {
    var q := Apply(Translation(dx, dy), p);
    assert q.x == 1.0 * p.x + 0.0 * p.y + dx * p.w;
    assert q.y == 0.0 * p.x + 1.0 * p.y + dy * p.w;
    assert q.w == 0.0 * p.x + 0.0 * p.y + 1.0 * p.w;
  }

  /** Scaling stretches the two coordinates independently. */
  lemma ScalingStretches(sx: real, sy: real, p: Point)
    ensures Apply(Scaling(sx, sy), p) == Point(sx * p.x, sy * p.y, p.w)
  {
    var q := Apply(Scaling(sx, sy), p);
    assert q.x == sx * p.x + 0.0 * p.y + 0.0 * p.w;
    assert q.y == 0.0 * p.x + sy * p.y + 0.0 * p.w;
    assert q.w == 0.0 * p.x + 0.0 * p.y + 1.0 * p.w;
  }

  /** The rotation maps its pivot to itself, whatever c and s are. */
  lemma RotationFixesPivot(c: real, s: real, px: real, py: real)
    ensures Apply(Rotation(c, s, px, py), Point(px, py, 1.0)) == Point(px, py, 1.0)
  {
  }

  /** After a post-translation, a point lands where the old matrix sent it,
      shifted by (dx, dy). */
  lemma PostTranslationShiftsImage(m: Mat, dx: real, dy: real, p: Point)
    ensures var q := Apply(m, p);
            Apply(Mul(Translation(dx, dy), m), p) == Point(q.x + dx * q.w, q.y + dy * q.w, q.w)
  {
    ApplyMul(Translation(dx, dy), m, p);
  }

  /** After a post-scale, a point lands where the old matrix sent it, scaled. */
  lemma PostScalingScalesImage(m: Mat, sx: real, sy: real, p: Point)
    ensures var q := Apply(m, p);
            Apply(Mul(Scaling(sx, sy), m), p) == Point(sx * q.x, sy * q.y, q.w)
  {
    ApplyMul(Scaling(sx, sy), m, p);
  }

  /** After a post-rotation, a point that the old matrix sent to the pivot is
      still sent to the pivot. */
  lemma PostRotationKeepsPivot(m: Mat, c: real, s: real, px: real, py: real, p: Point)
    requires Apply(m, p) == Point(px, py, 1.0)
    ensures Apply(Mul(Rotation(c, s, px, py), m), p) == Point(px, py, 1.0)
  {
    ApplyMul(Rotation(c, s, px, py), m, p);
    RotationFixesPivot(c, s, px, py);
  }

  /** From the identity, translating by (dx, dy) and then scaling by
      (sx, sy) scales the translation too: with (10, 0) and (2, 2) this is
      [2, 0, 20, 0, 2, 0, 0, 0, 1]. */
  lemma TranslateThenScale(dx: real, dy: real, sx: real, sy: real)
    ensures Mul(Scaling(sx, sy), Mul(Translation(dx, dy), Identity()))
            == Mul(Scaling(sx, sy), Translation(dx, dy))
            == Mat(sx, 0.0, sx * dx, 0.0, sy, sy * dy, 0.0, 0.0, 1.0)
  {
  }

  /** From the identity, scaling by (sx, sy) and then translating by
      (dx, dy) gives the product of the two transforms built by hand: scale
      on the diagonal and the translation untouched. */
  lemma ScaleThenTranslate(sx: real, sy: real, dx: real, dy: real)
    ensures Mul(Translation(dx, dy), Mul(Scaling(sx, sy), Identity()))
            == Mul(Translation(dx, dy), Scaling(sx, sy))
            == Mat(sx, 0.0, dx, 0.0, sy, dy, 0.0, 0.0, 1.0)
  {
  }

  // ---------------------------------------------------------------------
  // Text layout: three bracketed rows of three values, separated by ", ".

  /** The short form, with fmt standing for the platform's float rendering of
      one value: the three rows in brackets, values separated by ", ". */
  function ShortString(m: Mat, fmt: real -> string): string {
    "[" + fmt(m.scaleX) + ", " + fmt(m.skewX) + ", " + fmt(m.transX)
    + "][" + fmt(m.skewY) + ", " + fmt(m.scaleY) + ", " + fmt(m.transY)
    + "][" + fmt(m.persp0) + ", " + fmt(m.persp1) + ", " + fmt(m.persp2) + "]"
  }

  /** The long form wraps the short one. */
  function LongString(m: Mat, fmt: real -> string): string {
    "Matrix{" + ShortString(m, fmt) + "}"
  }

  lemma Associate(a: string, b: string, c: string)
    ensures a + (b + c) == a + b + c
  {
  }

  /** Appending the short form piece by piece, as the builder does, leaves
      the same text as appending it whole. */
  lemma AppendShortString(p: string, m: Mat, fmt: real -> string)
    ensures p + "[" + fmt(m.scaleX) + ", " + fmt(m.skewX) + ", " + fmt(m.transX)
            + "][" + fmt(m.skewY) + ", " + fmt(m.scaleY) + ", " + fmt(m.transY)
            + "][" + fmt(m.persp0) + ", " + fmt(m.persp1) + ", " + fmt(m.persp2) + "]"
            == p + ShortString(m, fmt)
  {
    var s := "[";
    Associate(p, s, fmt(m.scaleX)); s := s + fmt(m.scaleX);
    Associate(p, s, ", "); s := s + ", ";
    Associate(p, s, fmt(m.skewX)); s := s + fmt(m.skewX);
    Associate(p, s, ", "); s := s + ", ";
    Associate(p, s, fmt(m.transX)); s := s + fmt(m.transX);
    Associate(p, s, "]["); s := s + "][";
    Associate(p, s, fmt(m.skewY)); s := s + fmt(m.skewY);
    Associate(p, s, ", "); s := s + ", ";
    Associate(p, s, fmt(m.scaleY)); s := s + fmt(m.scaleY);
    Associate(p, s, ", "); s := s + ", ";
    Associate(p, s, fmt(m.transY)); s := s + fmt(m.transY);
    Associate(p, s, "]["); s := s + "][";
    Associate(p, s, fmt(m.persp0)); s := s + fmt(m.persp0);
    Associate(p, s, ", "); s := s + ", ";
    Associate(p, s, fmt(m.persp1)); s := s + fmt(m.persp1);
    Associate(p, s, ", "); s := s + ", ";
    Associate(p, s, fmt(m.persp2)); s := s + fmt(m.persp2);
    Associate(p, s, "]"); s := s + "]";
  }

  /** The short form of the identity: the rendering of 1 on the diagonal and
      that of 0 everywhere else. */
  lemma IdentityShortString(fmt: real -> string)
    ensures var one, zero := fmt(1.0), fmt(0.0);
            ShortString(Identity(), fmt)
            == "[" + one + ", " + zero + ", " + zero + "]"
             + "[" + zero + ", " + one + ", " + zero + "]"
             + "[" + zero + ", " + zero + ", " + one + "]"
  {
  }

  /** The short form opens with '[' and closes with ']'; its length is that of
      the nine rendered values plus 6 brackets and 6 two-character separators. */
  lemma ShortStringShape(m: Mat, fmt: real -> string)
    ensures var t := ShortString(m, fmt);
            var v := Slots(m);
            |t| == 18 + |fmt(v[0])| + |fmt(v[1])| + |fmt(v[2])| + |fmt(v[3])| + |fmt(v[4])|
                      + |fmt(v[5])| + |fmt(v[6])| + |fmt(v[7])| + |fmt(v[8])|
            && t[0] == '[' && t[|t| - 1] == ']'
  {
  }
}

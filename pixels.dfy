/** Pixel-level geometry shared by every iteration of the game: collision masks
    as finite sets of opaque pixel offsets, mask overlap, and the conversions
    between real-valued coordinates and whole pixels. */
module Pixels {

  /** The opaque pixels of a sprite frame, as offsets from its top-left corner.
      This stands for the bitmap that pygame.mask.from_surface builds. */
  type Mask = set<(int, int)>

  datatype Option<T> = None | Some(value: T)

  function Abs(v: real): (r: real)
    ensures r >= 0.0 && (r == v || r == -v)
  {
    if v < 0.0 then -v else v
  }

  /** -1, 0 or 1, as `abs(v) / v if v else 0` gives it. */
  function Sign(v: real): (r: int)
    ensures r == 0 <==> v == 0.0
    ensures r == 1 <==> v > 0.0
    ensures r == -1 <==> v < 0.0
  {
    if v > 0.0 then 1 else if v < 0.0 then -1 else 0
  }

  /** `math.ceil` of a real. */
  function Ceil(v: real): (r: int)
    ensures v <= r as real < v + 1.0
  {
    -((-v).Floor)
  }

  /** The whole pixel a Rect coordinate becomes when a real value is stored
      in it: truncation toward zero, as Python's `int()`. */
  function Trunc(v: real): (r: int)
    ensures Abs(r as real) <= Abs(v) < Abs(r as real) + 1.0
    ensures v >= 0.0 ==> r >= 0
    ensures v <= 0.0 ==> r <= 0
  {
    if v >= 0.0 then v.Floor else -((-v).Floor)
  }

  /** `rect.c += d`: the Rect coordinate `c` after a real displacement `d`. */
  function Shift(c: int, d: real): int
  {
    Trunc(c as real + d)
  }

  /** A whole-pixel displacement is stored exactly. */
  lemma ShiftWhole(c: int, d: int)
    ensures Shift(c, d as real) == c + d
  {
  }

  /** A fractional displacement is not undone by its opposite: starting at
      pixel 5, `+= 0.5` stays at 5 and `-= 0.5` then lands on 4. */
  lemma ShiftUndoInexact()
    ensures Shift(Shift(5, 0.5), -0.5) == 4
  {
    assert Shift(5, 0.5) == 5;
  }

  /** The mask `m` is opaque at offset `p`. */
  predicate Pixel(m: Mask, p: (int, int))
  {
    p in m
  }

  /** The mask `a` placed with its corner at (ax, ay) and the mask `b` placed
      at (qx, qy) share an opaque pixel (pygame.sprite.collide_mask). */
  predicate Overlaps(a: Mask, ax: int, ay: int, b: Mask, qx: int, qy: int)
  {
    exists p {:trigger Pixel(a, p)} | p in a :: (p.0 + ax - qx, p.1 + ay - qy) in b
  }

  /** Overlap is a property of the two placed masks, not of their order. */
  lemma OverlapsSymmetric(a: Mask, ax: int, ay: int, b: Mask, qx: int, qy: int)
    ensures Overlaps(a, ax, ay, b, qx, qy) <==> Overlaps(b, qx, qy, a, ax, ay)
  {
    if Overlaps(a, ax, ay, b, qx, qy) {
      var p :| p in a && (p.0 + ax - qx, p.1 + ay - qy) in b;
      var q := (p.0 + ax - qx, p.1 + ay - qy);
      assert (q.0 + qx - ax, q.1 + qy - ay) == p;
      assert Pixel(b, q);
    }
    if Overlaps(b, qx, qy, a, ax, ay) {
      var q :| q in b && (q.0 + qx - ax, q.1 + qy - ay) in a;
      var p := (q.0 + qx - ax, q.1 + qy - ay);
      assert (p.0 + ax - qx, p.1 + ay - qy) == q;
      assert Pixel(a, p);
    }
  }

  /** Only the relative placement matters: moving both masks by the same
      amount changes nothing. */
  lemma OverlapsTranslate(a: Mask, ax: int, ay: int, b: Mask, qx: int, qy: int, dx: int, dy: int)
    ensures Overlaps(a, ax + dx, ay + dy, b, qx + dx, qy + dy) <==> Overlaps(a, ax, ay, b, qx, qy)
  {
    if Overlaps(a, ax, ay, b, qx, qy) {
      var p :| p in a && (p.0 + ax - qx, p.1 + ay - qy) in b;
      assert (p.0 + (ax + dx) - (qx + dx), p.1 + (ay + dy) - (qy + dy)) in b;
      assert Pixel(a, p);
    }
    if Overlaps(a, ax + dx, ay + dy, b, qx + dx, qy + dy) {
      var p :| p in a && (p.0 + (ax + dx) - (qx + dx), p.1 + (ay + dy) - (qy + dy)) in b;
      assert (p.0 + ax - qx, p.1 + ay - qy) in b;
      assert Pixel(a, p);
    }
  }

  /** A fully transparent frame touches nothing. */
  lemma EmptyMaskNeverOverlaps(b: Mask, ax: int, ay: int, qx: int, qy: int)
    ensures !Overlaps({}, ax, ay, b, qx, qy)
  {
  }
}

/**
 Circle against axis-aligned rectangle (public/js/util.js) and the push a dash reflection makes
 (public/js/game.js).
 */
module Geometry {
  import opened Options
  import opened JsNumbers

  datatype Rect = Rect(x: real, y: real, w: real, h: real)

  datatype Hit = Hit(nx: real, ny: real, contactX: real, contactY: real, penetration: real)

  predicate CircleRect(cx: real, cy: real, r: real, b: Rect) {
    var dx := cx - Clamp(cx, b.x, b.x + b.w);
    var dy := cy - Clamp(cy, b.y, b.y + b.h);
    dx * dx + dy * dy <= r * r
  }

  predicate CircleCircle(ax: real, ay: real, ar: real, ox: real, oy: real, or: real) {
    (ax - ox) * (ax - ox) + (ay - oy) * (ay - oy) <= (ar + or) * (ar + or)
  }

  function Sign(v: real): real {
    if v > 0.0 then 1.0 else if v < 0.0 then -1.0 else 0.0
  }

  /** The contact normal: the dominant axis, and on a tie the nearest face. */
  function Normal(cx: real, cy: real, b: Rect): (real, real) {
    var dx := cx - Clamp(cx, b.x, b.x + b.w);
    var dy := cy - Clamp(cy, b.y, b.y + b.h);
    if Abs(dx) > Abs(dy) then (Sign(dx), 0.0)
    else if Abs(dy) > Abs(dx) then (0.0, Sign(dy))
    else
      var left, right := cx - b.x, b.x + b.w - cx;
      var top, bottom := cy - b.y, b.y + b.h - cy;
      if Min(left, right) <= Min(top, bottom) then (if left < right then -1.0 else 1.0, 0.0)
      else (0.0, if top < bottom then -1.0 else 1.0)
  }

  /** What a hit reports: normal, contact point and penetration along the normal. */
  function HitAt(cx: real, cy: real, r: real, b: Rect): Hit {
    var (nx, ny) := Normal(cx, cy, b);
    var contactX := if nx < 0.0 then b.x else if nx > 0.0 then b.x + b.w else cx;
    var contactY := if ny < 0.0 then b.y else if ny > 0.0 then b.y + b.h else cy;
    var pen :=
      if nx != 0.0 then r - (if nx < 0.0 then cx - b.x else b.x + b.w - cx)
      else if ny != 0.0 then r - (if ny < 0.0 then cy - b.y else b.y + b.h - cy)
      else r;
    Hit(nx, ny, contactX, contactY, Max(0.0, pen))
  }

  function CircleRectInfo(cx: real, cy: real, r: real, b: Rect): Option<Hit> {
    var dx := cx - Clamp(cx, b.x, b.x + b.w);
    var dy := cy - Clamp(cy, b.y, b.y + b.h);
    if dx * dx + dy * dy > r * r then None else Some(HitAt(cx, cy, r, b))
  }

  /** Both tests see the same hits, and every hit comes with one of the four axis directions. */
  lemma InfoAgrees(cx: real, cy: real, r: real, b: Rect)
    ensures CircleRectInfo(cx, cy, r, b).Some? <==> CircleRect(cx, cy, r, b)
    ensures CircleRectInfo(cx, cy, r, b).Some? ==>
      var hit := CircleRectInfo(cx, cy, r, b).value;
      (hit.nx == 0.0 && (hit.ny == 1.0 || hit.ny == -1.0)) || (hit.ny == 0.0 && (hit.nx == 1.0 || hit.nx == -1.0))
  {
  }

  /**
   Of the four sides, the one the centre is furthest beyond - or least short of, inside - gives the direction, and the
   penetration is that distance and the radius; on a tie left and right come first.
   */
  lemma HitIs(cx: real, cy: real, r: real, b: Rect, left: real, right: real, top: real, bottom: real)
    requires b.w >= 0.0 && b.h >= 0.0
    requires left == b.x - cx && right == cx - (b.x + b.w) && top == b.y - cy && bottom == cy - (b.y + b.h)
    ensures var hit := HitAt(cx, cy, r, b);
            var beyond := Max(Max(left, right), Max(top, bottom));
            && hit.penetration == Max(0.0, r + beyond)
            && (beyond == left && left > right ==>
                  hit.nx == -1.0 && hit.ny == 0.0 && hit.contactX == b.x && hit.contactY == cy)
            && (beyond == right && right >= left ==>
                  hit.nx == 1.0 && hit.ny == 0.0 && hit.contactX == b.x + b.w && hit.contactY == cy)
            && (beyond > left && beyond > right && top > bottom ==>
                  hit.nx == 0.0 && hit.ny == -1.0 && hit.contactX == cx && hit.contactY == b.y)
            && (beyond > left && beyond > right && top <= bottom ==>
                  hit.nx == 0.0 && hit.ny == 1.0 && hit.contactX == cx && hit.contactY == b.y + b.h)
  {
  }

  predicate Inside(cx: real, cy: real, b: Rect) {
    b.x <= cx <= b.x + b.w && b.y <= cy <= b.y + b.h
  }

  /** Distance from a centre inside the rectangle to its nearest face. */
  function Depth(cx: real, cy: real, b: Rect): real {
    Min(Min(cx - b.x, b.x + b.w - cx), Min(cy - b.y, b.y + b.h - cy))
  }

  /** The point `p` moved by `push` along the unit or zero component `n`. */
  function Along(p: real, n: real, push: real): real {
    p + n * push
  }

  lemma AlongUnit(p: real, n: real, push: real)
    ensures n == 1.0 ==> Along(p, n, push) == p + push
    ensures n == -1.0 ==> Along(p, n, push) == p - push
    ensures n == 0.0 ==> Along(p, n, push) == p
  {
  }

  /** Whether moving the centre along the hit's normal by its penetration and some slack clears the rectangle. */
  predicate PushClears(cx: real, cy: real, r: real, b: Rect, slack: real)
    requires CircleRectInfo(cx, cy, r, b).Some?
  {
    var hit := CircleRectInfo(cx, cy, r, b).value;
    var push := hit.penetration + slack;
    !CircleRect(Along(cx, hit.nx, push), Along(cy, hit.ny, push), r, b)
  }

  lemma SquareOrder(a: real, r: real)
    requires a >= 0.0 && r >= 0.0
    ensures a * a <= r * r <==> a <= r
  {
    if a > r { SquareGrows(r, a - r); }
    if a < r { SquareGrows(a, r - a); }
  }

  lemma SquareGrows(r: real, d: real)
    requires r >= 0.0 && d > 0.0
    ensures (r + d) * (r + d) > r * r
  {
    Positive(d, r);
    assert (r + d) * (r + d) == r * r + 2.0 * (d * r) + d * d;
  }

  lemma Positive(x: real, y: real)
    requires x > 0.0 && y >= 0.0
    ensures x * y >= 0.0 && x * x > 0.0
  {
  }

  lemma SquareNonNegative(a: real)
    ensures a * a >= 0.0
    ensures a * a == Abs(a) * Abs(a)
  {
  }

  /** The disc test along the axes: far on one axis is a miss, level on one axis leaves the other to decide. */
  lemma DiscTest(dx: real, dy: real, r: real)
    requires r >= 0.0
    ensures Abs(dx) > r || Abs(dy) > r ==> dx * dx + dy * dy > r * r
    ensures dy == 0.0 ==> (dx * dx + dy * dy <= r * r <==> Abs(dx) <= r)
    ensures dx == 0.0 ==> (dx * dx + dy * dy <= r * r <==> Abs(dy) <= r)
  {
    SquareOrder(Abs(dx), r);
    SquareOrder(Abs(dy), r);
    SquareNonNegative(dx);
    SquareNonNegative(dy);
  }

  /** The room a push leaves on each axis; linear reasoning only. */
  lemma PushedOffsets(cx: real, cy: real, r: real, b: Rect, slack: real, px: real, py: real)
    requires r >= 0.0 && b.w >= 0.0 && b.h >= 0.0 && slack > 0.0
    requires var hit := HitAt(cx, cy, r, b);
             px == Along(cx, hit.nx, hit.penetration + slack) && py == Along(cy, hit.ny, hit.penetration + slack)
    ensures var ox := px - Clamp(px, b.x, b.x + b.w);
            var oy := py - Clamp(py, b.y, b.y + b.h);
            var clears := slack > r + Depth(cx, cy, b) - Max(0.0, r - Depth(cx, cy, b));
            && (!Inside(cx, cy, b) ==> Abs(ox) > r || Abs(oy) > r)
            && (Inside(cx, cy, b) ==>
                (oy == 0.0 && (Abs(ox) > r <==> clears)) || (ox == 0.0 && (Abs(oy) > r <==> clears)))
  {
    var hit := HitAt(cx, cy, r, b);
    AlongUnit(cx, hit.nx, hit.penetration + slack);
    AlongUnit(cy, hit.ny, hit.penetration + slack);
  }

  lemma DiscDecides(px: real, py: real, r: real, b: Rect, ox: real, oy: real, clear: bool)
    requires r >= 0.0
    requires ox == px - Clamp(px, b.x, b.x + b.w) && oy == py - Clamp(py, b.y, b.y + b.h)
    requires clear ==> Abs(ox) > r || Abs(oy) > r
    requires !clear ==> (oy == 0.0 && Abs(ox) <= r) || (ox == 0.0 && Abs(oy) <= r)
    ensures CircleRect(px, py, r, b) <==> !clear
  {
    DiscTest(ox, oy, r);
  }

  /**
   A centre outside the rectangle is always pushed clear. For a centre inside, the penetration counts
   the distance to the face on the wrong side, and the push clears exactly when the slack makes up for it.
   */
  lemma PushClearsExactly(cx: real, cy: real, r: real, b: Rect, slack: real)
    requires r >= 0.0 && b.w >= 0.0 && b.h >= 0.0 && slack > 0.0
    requires CircleRectInfo(cx, cy, r, b).Some?
    ensures PushClears(cx, cy, r, b, slack) <==>
              !Inside(cx, cy, b) || slack > r + Depth(cx, cy, b) - Max(0.0, r - Depth(cx, cy, b))
  {
    var hit := HitAt(cx, cy, r, b);
    var px, py := Along(cx, hit.nx, hit.penetration + slack), Along(cy, hit.ny, hit.penetration + slack);
    PushedOffsets(cx, cy, r, b, slack, px, py);
    DiscDecides(px, py, r, b, px - Clamp(px, b.x, b.x + b.w), py - Clamp(py, b.y, b.y + b.h),
                !Inside(cx, cy, b) || slack > r + Depth(cx, cy, b) - Max(0.0, r - Depth(cx, cy, b)));
  }
}

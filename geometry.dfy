/** Board geometry of the engine: the constants at the top of pacman.js,
    axis-aligned boxes, the edge-exclusive overlap test `collision`, the
    board bounds, headings with their velocities, and the snap of a pixel
    coordinate to the nearest tile (`Math.round(x / tileSize) * tileSize`). */
module Geometry {

  const TileSize: int := 32
  const RowCount: int := 21
  const ColumnCount: int := 19
  const BoardWidth: int := ColumnCount * TileSize
  const BoardHeight: int := RowCount * TileSize
  /** Pixels an actor moves per tick: `tileSize / 4`. */
  const Speed: int := TileSize / 4

  /** The `{x, y, width, height}` shape every collision test works on. */
  datatype Box = Box(x: int, y: int, w: int, h: int)

  /** The headings 'U', 'D', 'L', 'R'. */
  datatype Dir = U | D | L | R

  /** The `directions` array, in its declared order. */
  const Headings: seq<Dir> := [U, D, L, R]

  function Abs(n: int): int { if n < 0 then -n else n }

  /** JavaScript's `%`: the remainder of a division that truncates toward
      zero, so it takes the sign of the dividend. */
  function JsRem(a: int, n: int): (r: int)
    requires n > 0
    ensures Abs(r) == Abs(a) % n
    ensures r != 0 ==> (r < 0 <==> a < 0)
  {
    if a >= 0 then a % n else -((-a) % n)
  }

  /** `collision(a, b)`: the boxes overlap with positive area; boxes that
      only share an edge or a corner do not collide. */
  predicate Collision(a: Box, b: Box) {
    a.x < b.x + b.w && a.x + a.w > b.x && a.y < b.y + b.h && a.y + a.h > b.y
  }

  /** Pixel (px, py) lies inside box b. */
  predicate Covers(b: Box, px: int, py: int) {
    b.x <= px < b.x + b.w && b.y <= py < b.y + b.h
  }

  /** For boxes of positive size, `collision` holds exactly when some pixel
      lies inside both boxes. */
  lemma CollisionSharesPixel(a: Box, b: Box)
    requires a.w > 0 && a.h > 0 && b.w > 0 && b.h > 0
    ensures Collision(a, b) <==> exists px, py :: Covers(a, px, py) && Covers(b, px, py)
  {
    if Collision(a, b) {
      var px := if a.x < b.x then b.x else a.x;
      var py := if a.y < b.y then b.y else a.y;
      assert Covers(a, px, py) && Covers(b, px, py);
    }
  }

  lemma CollisionSymmetric(a: Box, b: Box)
    ensures Collision(a, b) <==> Collision(b, a)
  {
  }

  /** Boxes touching along a vertical or a horizontal edge do not collide. */
  lemma TouchingBoxesDoNotCollide(a: Box, b: Box)
    requires a.x + a.w == b.x || b.x + b.w == a.x || a.y + a.h == b.y || b.y + b.h == a.y
    ensures !Collision(a, b)
  {
  }

  /** The negation of the board-bounds test the source repeats in
      `move`, `attemptDirectionChange` and `canMoveInDirection`. */
  predicate InBounds(b: Box) {
    !(b.x < 0 || b.x + b.w > BoardWidth || b.y < 0 || b.y + b.h > BoardHeight)
  }

  /** Some wall of `walls` overlaps `b`. */
  predicate HitsWall(b: Box, walls: seq<Box>) {
    exists i :: 0 <= i < |walls| && Collision(b, walls[i])
  }

  /** A box is blocked when it leaves the board or overlaps a wall. */
  predicate Blocked(b: Box, walls: seq<Box>) {
    !InBounds(b) || HitsWall(b, walls)
  }

  /** `updateVelocity`: one step of `Speed` pixels along the heading's axis;
      screen y grows downwards, so Up is negative y. */
  function Velocity(d: Dir): (v: (int, int))
    ensures Abs(v.0) + Abs(v.1) == Speed
    ensures v.0 == 0 <==> d == U || d == D
    ensures v.1 == 0 <==> d == L || d == R
    ensures v.0 < 0 <==> d == L
    ensures v.1 < 0 <==> d == U
  {
    match d
    case U => (0, -Speed)
    case D => (0, Speed)
    case L => (-Speed, 0)
    case R => (Speed, 0)
  }

  /** `getOppositeDirection`: the reverse heading, whose velocity is the
      negated velocity. */
  function Opposite(d: Dir): (r: Dir)
    ensures r != d
    ensures Velocity(r) == (-Velocity(d).0, -Velocity(d).1)
  {
    match d
    case U => D
    case D => U
    case L => R
    case R => L
  }

  lemma OppositeInvolutive(d: Dir)
    ensures Opposite(Opposite(d)) == d
  {
  }

  /** `Math.round(x / tileSize)` for an integer x: the nearest tile index,
      halves rounded up. */
  function RoundToTile(x: int): (n: int)
    ensures n * TileSize - TileSize / 2 <= x < n * TileSize + TileSize / 2
  {
    (x + TileSize / 2) / TileSize
  }

  /** `Math.round(x / tileSize) * tileSize`: the nearest multiple of the
      tile size, an exact half tile rounding up. */
  function Snap(x: int): (s: int)
    ensures s % TileSize == 0
    ensures x - TileSize / 2 < s <= x + TileSize / 2
  {
    RoundToTile(x) * TileSize
  }

  /** A wall as `loadMap` creates it: one whole tile on the grid. */
  predicate GridTile(b: Box) {
    b.w == TileSize && b.h == TileSize && b.x % TileSize == 0 && b.y % TileSize == 0
  }

  /** Two tile-aligned boxes of tile size overlap only if they coincide. */
  lemma {:induction false} GridTilesCollideOnlyIfEqual(a: Box, b: Box)
    requires GridTile(a) && GridTile(b)
    ensures Collision(a, b) <==> a.x == b.x && a.y == b.y
  {
    var ac, bc, ar, br := a.x / TileSize, b.x / TileSize, a.y / TileSize, b.y / TileSize;
    assert a.x == ac * TileSize && b.x == bc * TileSize;
    assert a.y == ar * TileSize && b.y == br * TileSize;
    if Collision(a, b) {
      assert ac < bc + 1 && ac + 1 > bc;
      assert ar < br + 1 && ar + 1 > br;
    }
  }

  /** Snapping a tile-sized box that is not blocked by tile-aligned walls
      gives a box that is not blocked either: the snapped box is a tile the
      original box already overlapped, and it stays on the board. */
  lemma {:induction false} SnapKeepsClear(x: int, y: int, walls: seq<Box>)
    requires forall i :: 0 <= i < |walls| ==> GridTile(walls[i])
    requires !Blocked(Box(x, y, TileSize, TileSize), walls)
    ensures !Blocked(Box(Snap(x), Snap(y), TileSize, TileSize), walls)
  {
    var b := Box(x, y, TileSize, TileSize);
    var s := Box(Snap(x), Snap(y), TileSize, TileSize);
    var cx, cy := RoundToTile(x), RoundToTile(y);
    assert cx >= 0 && cx <= ColumnCount - 1;
    assert cy >= 0 && cy <= RowCount - 1;
    forall i | 0 <= i < |walls|
      ensures !Collision(s, walls[i])
    {
      var w := walls[i];
      if Collision(s, w) {
        GridTilesCollideOnlyIfEqual(s, w);
        assert Collision(b, w);
        assert false;
      }
    }
  }

  /** The `for (let wall of walls.values())` scan with its early `break`:
      reports whether some wall overlaps `b`. */
  method CollidesWithAnyWall(b: Box, walls: seq<Box>) returns (hit: bool)
    ensures hit <==> HitsWall(b, walls)
  {
    hit := false;
    var i := 0;
    while i < |walls|
      invariant 0 <= i <= |walls|
      invariant forall j :: 0 <= j < i ==> !Collision(b, walls[j])
    {
      if Collision(b, walls[i]) {
        hit := true;
        break;
      }
      i := i + 1;
    }
  }
}

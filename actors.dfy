/** The `Block` class of pacman.js as used for pacman and the ghosts: a
    box that moves at `Speed` pixels per tick along its heading. Each
    method that changes a Block is specified by a function on its `Pose`,
    the part of a Block the methods change. */
module Actors {
  import opened Wrappers
  import opened Geometry
  import opened WorldMap

  /** Which sprite a Block carries. The source tells the ghosts apart, and
      finds the chaser, by comparing `image` fields; the role stands in for
      that comparison. */
  datatype Role = Player | Ghost(color: Color)

  /** Position, `direction` and `velocityX`/`velocityY` of a Block. */
  datatype Pose = Pose(x: int, y: int, dir: Dir, vx: int, vy: int)

  /** `this.direction = d; this.updateVelocity();` */
  function Heading(p: Pose, d: Dir): Pose {
    p.(dir := d, vx := Velocity(d).0, vy := Velocity(d).1)
  }

  /** `this.velocityX = 0; this.velocityY = 0;` */
  function Halt(p: Pose): Pose {
    p.(vx := 0, vy := 0)
  }

  /** The box at the one-step look-ahead of heading d. */
  function Projected(p: Pose, w: int, h: int, d: Dir): Box {
    Box(p.x + Velocity(d).0, p.y + Velocity(d).1, w, h)
  }

  /** `canMoveInDirection(d)`: one step in heading d stays on the board and
      overlaps no wall. */
  predicate CanMove(p: Pose, w: int, h: int, d: Dir, walls: seq<Box>) {
    !Blocked(Projected(p, w, h, d), walls)
  }

  /** `directions.filter(dir => dir !== e)` applied to a shuffled order. */
  function Without(s: seq<Dir>, e: Dir): (r: seq<Dir>)
    ensures forall d :: d in r <==> d in s && d != e
    ensures forall d :: d != e ==> multiset(r)[d] == multiset(s)[d]
    ensures |r| <= |s|
  {
    if s == [] then []
    else
      assert s == [s[0]] + s[1..];
      (if s[0] == e then [] else [s[0]]) + Without(s[1..], e)
  }

  /** The first heading of `cands` that can be moved in, if any. */
  function FirstMovable(cands: seq<Dir>, p: Pose, w: int, h: int, walls: seq<Box>): Option<Dir> {
    if cands == [] then None
    else if CanMove(p, w, h, cands[0], walls) then Some(cands[0])
    else FirstMovable(cands[1..], p, w, h, walls)
  }

  /** FirstMovable finds a movable heading of `cands` preceded only by
      blocked ones, and finds none exactly when every heading is blocked. */
  lemma {:induction false} FirstMovableIsFirst(cands: seq<Dir>, p: Pose, w: int, h: int, walls: seq<Box>)
    ensures var r := FirstMovable(cands, p, w, h, walls);
      (r.Some? ==> r.value in cands && CanMove(p, w, h, r.value, walls)) &&
      (r.Some? ==> exists i :: 0 <= i < |cands| && cands[i] == r.value &&
                     forall j :: 0 <= j < i ==> !CanMove(p, w, h, cands[j], walls)) &&
      (r.None? ==> forall d :: d in cands ==> !CanMove(p, w, h, d, walls))
  {
    if cands != [] && !CanMove(p, w, h, cands[0], walls) {
      var r := FirstMovable(cands, p, w, h, walls);
      FirstMovableIsFirst(cands[1..], p, w, h, walls);
      if r.Some? {
        var i :| 0 <= i < |cands[1..]| && cands[1..][i] == r.value &&
                 forall j :: 0 <= j < i ==> !CanMove(p, w, h, cands[1..][j], walls);
        assert cands[i + 1] == r.value;
      } else {
        forall d | d in cands
          ensures !CanMove(p, w, h, d, walls)
        {
          if d != cands[0] {
            assert d in cands[1..];
          }
        }
      }
    }
  }

  /** The pose after `chooseNewDirection` with the shuffle `order`: the
      first movable non-reversing heading of the order, else the reverse if
      it is movable, else the same heading with zero velocity. */
  function ChooseNew(p: Pose, w: int, h: int, walls: seq<Box>, order: seq<Dir>): Pose {
    var opp := Opposite(p.dir);
    var found := FirstMovable(Without(order, opp), p, w, h, walls);
    if found.Some? then Heading(p, found.value)
    else if CanMove(p, w, h, opp, walls) then Heading(p, opp)
    else Halt(p)
  }

  /** A shuffle of the four headings reaches every heading. */
  predicate IsShuffle(order: seq<Dir>) {
    |order| == |Headings| && forall d: Dir :: d in order
  }

  /** The fixed order U, D, L, R is itself a shuffle. */
  lemma HeadingsIsShuffle()
    ensures IsShuffle(Headings)
  {
    forall d: Dir
      ensures d in Headings
    {
      match d
      case U => assert Headings[0] == d;
      case D => assert Headings[1] == d;
      case L => assert Headings[2] == d;
      case R => assert Headings[3] == d;
    }
  }

  /** The three ways `chooseNewDirection` ends, for any shuffle: a movable
      non-reversing heading whenever one exists; the reverse only when no
      other heading is movable and the reverse is; otherwise the heading is
      kept and the velocity is zero. The position never changes. */
  lemma ChooseNewOutcomes(p: Pose, w: int, h: int, walls: seq<Box>, order: seq<Dir>)
    requires IsShuffle(order)
    ensures var q := ChooseNew(p, w, h, walls, order);
      var opp := Opposite(p.dir);
      q.x == p.x && q.y == p.y &&
      ((exists d :: d != opp && CanMove(p, w, h, d, walls)) ==>
         q.dir != opp && CanMove(p, w, h, q.dir, walls) && (q.vx, q.vy) == Velocity(q.dir)) &&
      ((forall d :: d != opp ==> !CanMove(p, w, h, d, walls)) && CanMove(p, w, h, opp, walls) ==>
         q.dir == opp && (q.vx, q.vy) == Velocity(opp)) &&
      ((forall d :: !CanMove(p, w, h, d, walls)) ==>
         q.dir == p.dir && q.vx == 0 && q.vy == 0)
  {
    var opp := Opposite(p.dir);
    var cands := Without(order, opp);
    FirstMovableIsFirst(cands, p, w, h, walls);
    if d :| d != opp && CanMove(p, w, h, d, walls) {
      assert d in cands;
    }
  }

  /** The pose after `attemptDirectionChange(nd)`. A stopped Block takes
      the new heading unconditionally. A moving one is snapped to the
      nearest tile and tested one step ahead in the new heading: if that
      step is clear it keeps the snapped position and the new heading,
      otherwise position and heading are restored. There is no exception
      for reversing. */
  function Attempt(p: Pose, w: int, h: int, walls: seq<Box>, nd: Dir): Pose {
    if p.vx == 0 && p.vy == 0 then Heading(p, nd)
    else
      var s := p.(x := Snap(p.x), y := Snap(p.y));
      if CanMove(s, w, h, nd, walls) then Heading(s, nd) else Heading(p, p.dir)
  }

  /** A Block; walls and pellets are plain boxes (see Geometry.Box), so
      the class is used for pacman and the ghosts. */
  class Actor {
    const role: Role
    const w: int
    const h: int
    const startX: int
    const startY: int
    var x: int
    var y: int
    var dir: Dir
    var vx: int
    var vy: int

    /** `new Block(image, x, y, width, height)`: facing right, at rest. */
    constructor (role: Role, x: int, y: int, w: int, h: int)
      ensures this.role == role && this.w == w && this.h == h
      ensures startX == x && startY == y
      ensures State() == Pose(x, y, R, 0, 0)
    {
      this.role := role;
      this.w := w;
      this.h := h;
      this.startX := x;
      this.startY := y;
      this.x := x;
      this.y := y;
      this.dir := R;
      this.vx := 0;
      this.vy := 0;
    }

    function State(): Pose
      reads this
    {
      Pose(x, y, dir, vx, vy)
    }

    function Bounds(): Box
      reads this
    {
      Box(x, y, w, h)
    }

    /** `updateVelocity`. */
    method UpdateVelocity()
      modifies this
      ensures State() == Heading(old(State()), old(dir))
    {
      var speed := TileSize / 4;
      match dir
      case U => vx, vy := 0, -speed;
      case D => vx, vy := 0, speed;
      case L => vx, vy := -speed, 0;
      case R => vx, vy := speed, 0;
    }

    /** `canMoveInDirection(d)`. Position and heading are restored, but the
        velocity is recomputed from the restored heading, so a stopped Block
        comes back with the velocity of its heading. */
    method CanMoveInDirection(d: Dir, walls: seq<Box>) returns (ok: bool)
      modifies this
      ensures ok == CanMove(old(State()), w, h, d, walls)
      ensures State() == Heading(old(State()), old(dir))
    {
      var originalX, originalY, originalDir := x, y, dir;
      dir := d;
      UpdateVelocity();
      var testX, testY := originalX + vx, originalY + vy;
      var collisionDetected := false;
      if testX < 0 || testX + w > BoardWidth || testY < 0 || testY + h > BoardHeight {
        collisionDetected := true;
      } else {
        collisionDetected := CollidesWithAnyWall(Box(testX, testY, w, h), walls);
      }
      dir := originalDir;
      UpdateVelocity();
      ok := !collisionDetected;
    }

    /** `attemptDirectionChange(nd)`. */
    method AttemptDirectionChange(nd: Dir, walls: seq<Box>)
      modifies this
      ensures State() == Attempt(old(State()), w, h, walls, nd)
    {
      if vx == 0 && vy == 0 {
        dir := nd;
        UpdateVelocity();
        return;
      }
      ghost var p := State();
      ghost var snapped := p.(x := Snap(p.x), y := Snap(p.y));
      var originalDirection, originalX, originalY := dir, x, y;
      var col := RoundToTile(x);
      var row := RoundToTile(y);
      x, y := col * TileSize, row * TileSize;
      dir := nd;
      UpdateVelocity();
      x, y := x + vx, y + vy;
      assert Bounds() == Projected(snapped, w, h, nd);
      var collisionDetected := false;
      if x < 0 || x + w > BoardWidth || y < 0 || y + h > BoardHeight {
        collisionDetected := true;
      } else {
        collisionDetected := CollidesWithAnyWall(Bounds(), walls);
      }
      assert collisionDetected == !CanMove(snapped, w, h, nd, walls);
      x, y := x - vx, y - vy;
      if collisionDetected {
        dir := originalDirection;
        UpdateVelocity();
        x, y := originalX, originalY;
      }
    }

    /** `chooseNewDirection`, with the outcome of
        `potentialDirections.sort(() => Math.random() - 0.5)` supplied as
        `order`. */
    method ChooseNewDirection(walls: seq<Box>, order: seq<Dir>)
      modifies this
      ensures State() == ChooseNew(old(State()), w, h, walls, order)
    {
      ghost var p := State();
      var oppositeDirection := Opposite(dir);
      var potentialDirections := Without(order, oppositeDirection);
      ghost var first := FirstMovable(potentialDirections, p, w, h, walls);
      var newDirection: Option<Dir> := None;
      var i := 0;
      while i < |potentialDirections|
        invariant 0 <= i <= |potentialDirections|
        invariant x == p.x && y == p.y && dir == p.dir
        invariant newDirection.None? ==> FirstMovable(potentialDirections[i..], p, w, h, walls) == first
        invariant newDirection.Some? ==> newDirection == first
      {
        assert potentialDirections[i..][1..] == potentialDirections[i + 1..];
        ghost var q := State();
        var ok := CanMoveInDirection(potentialDirections[i], walls);
        assert Projected(q, w, h, potentialDirections[i]) == Projected(p, w, h, potentialDirections[i]);
        if ok {
          newDirection := Some(potentialDirections[i]);
          break;
        }
        i := i + 1;
      }
      if newDirection.None? {
        ghost var q := State();
        var ok := CanMoveInDirection(oppositeDirection, walls);
        assert Projected(q, w, h, oppositeDirection) == Projected(p, w, h, oppositeDirection);
        if ok {
          newDirection := Some(oppositeDirection);
        }
      }
      if newDirection.Some? {
        dir := newDirection.value;
        UpdateVelocity();
      } else {
        vx, vy := 0, 0;
      }
    }

    /** `reset`: back to the spawn position, facing right, at rest. */
    method Reset()
      modifies this
      ensures State() == Pose(startX, startY, R, 0, 0)
    {
      x, y := startX, startY;
      dir := R;
      vx, vy := 0, 0;
    }
  }
}

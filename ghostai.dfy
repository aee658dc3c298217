/** Ghost behaviour in pacman.js: the greedy pursuit of
    `chooseBestChaseDirection` and the per-ghost part of `move` (house-exit
    override, tile-centre snap and decision, wall rollback). */
module GhostAI {
  import opened Wrappers
  import opened Geometry
  import opened WorldMap
  import opened Actors

  /** Position of a heading in the order `['U', 'D', 'L', 'R']` the
      pursuit loop tries them in. */
  function IndexOf(d: Dir): (i: int)
    ensures 0 <= i < |Headings| && Headings[i] == d
  {
    match d
    case U => 0
    case D => 1
    case L => 2
    case R => 3
  }

  /** A heading the pursuit may take: not the reverse of the current
      heading, and one step along it overlaps no wall. Board bounds are not
      tested. */
  predicate ChaseCandidate(p: Pose, w: int, h: int, d: Dir, walls: seq<Box>) {
    d != Opposite(p.dir) && !HitsWall(Projected(p, w, h, d), walls)
  }

  /** Manhattan distance from the one-step projection along d to (tx, ty). */
  function ChaseDistance(p: Pose, d: Dir, tx: int, ty: int): int {
    Abs(p.x + Velocity(d).0 - tx) + Abs(p.y + Velocity(d).1 - ty)
  }

  /** The loop of `chooseBestChaseDirection` over the headings `ds` still to
      try, from the running `bestDirection` and `minDistance`
      (`None` stands for `Infinity`). */
  function ChaseFold(ds: seq<Dir>, p: Pose, w: int, h: int, tx: int, ty: int, walls: seq<Box>,
                     best: Dir, min: Option<int>): Dir
    decreases |ds|
  {
    if ds == [] then best
    else if !ChaseCandidate(p, w, h, ds[0], walls) then ChaseFold(ds[1..], p, w, h, tx, ty, walls, best, min)
    else
      var nd := ChaseDistance(p, ds[0], tx, ty);
      if min.None? || nd < min.value then ChaseFold(ds[1..], p, w, h, tx, ty, walls, ds[0], Some(nd))
      else ChaseFold(ds[1..], p, w, h, tx, ty, walls, best, min)
  }

  /** `chooseBestChaseDirection(ghost)` for a ghost in pose p, with the
      position of pacman as `target` (`None` when pacman is null). */
  function BestChase(p: Pose, w: int, h: int, target: Option<(int, int)>, walls: seq<Box>): Option<Dir> {
    if target.None? then None
    else Some(ChaseFold(Headings, p, w, h, target.value.0, target.value.1, walls, p.dir, None))
  }

  /** What the pursuit loop knows after trying the first i headings. */
  predicate ChaseSoFar(p: Pose, w: int, h: int, tx: int, ty: int, walls: seq<Box>,
                       i: int, best: Dir, min: Option<int>) {
    0 <= i <= |Headings| &&
    (min.None? ==> best == p.dir && forall j :: 0 <= j < i ==> !ChaseCandidate(p, w, h, Headings[j], walls)) &&
    (min.Some? ==>
      ChaseCandidate(p, w, h, best, walls) && ChaseDistance(p, best, tx, ty) == min.value && IndexOf(best) < i &&
      forall j :: 0 <= j < i && ChaseCandidate(p, w, h, Headings[j], walls) ==>
        min.value < ChaseDistance(p, Headings[j], tx, ty) ||
        (min.value == ChaseDistance(p, Headings[j], tx, ty) && IndexOf(best) <= j))
  }

  /** The greedy choice: among the candidates, a heading of least distance,
      the first such in U, D, L, R order; the current heading when there is
      no candidate. */
  predicate GreedyChoice(p: Pose, w: int, h: int, tx: int, ty: int, walls: seq<Box>, r: Dir) {
    ((exists d :: ChaseCandidate(p, w, h, d, walls)) ==>
       ChaseCandidate(p, w, h, r, walls) &&
       forall d :: ChaseCandidate(p, w, h, d, walls) ==>
         ChaseDistance(p, r, tx, ty) < ChaseDistance(p, d, tx, ty) ||
         (ChaseDistance(p, r, tx, ty) == ChaseDistance(p, d, tx, ty) && IndexOf(r) <= IndexOf(d))) &&
    ((forall d :: !ChaseCandidate(p, w, h, d, walls)) ==> r == p.dir)
  }

  /** Once every heading has been tried, the running best is the greedy
      choice. */
  lemma ChaseSoFarComplete(p: Pose, w: int, h: int, tx: int, ty: int, walls: seq<Box>, best: Dir, min: Option<int>)
    requires ChaseSoFar(p, w, h, tx, ty, walls, |Headings|, best, min)
    ensures GreedyChoice(p, w, h, tx, ty, walls, best)
  {
    forall d | ChaseCandidate(p, w, h, d, walls)
      ensures min.Some? && ChaseDistance(p, best, tx, ty) == min.value
      ensures min.value < ChaseDistance(p, d, tx, ty) ||
              (min.value == ChaseDistance(p, d, tx, ty) && IndexOf(best) <= IndexOf(d))
    {
      assert Headings[IndexOf(d)] == d;
    }
  }

  /** Trying heading i keeps what the loop knows: a candidate strictly
      closer than the best so far (or the first candidate) replaces it. */
  lemma ChaseSoFarStep(p: Pose, w: int, h: int, tx: int, ty: int, walls: seq<Box>, i: int, best: Dir, min: Option<int>)
    requires ChaseSoFar(p, w, h, tx, ty, walls, i, best, min) && i < |Headings|
    ensures var d := Headings[i];
      if ChaseCandidate(p, w, h, d, walls) && (min.None? || ChaseDistance(p, d, tx, ty) < min.value)
      then ChaseSoFar(p, w, h, tx, ty, walls, i + 1, d, Some(ChaseDistance(p, d, tx, ty)))
      else ChaseSoFar(p, w, h, tx, ty, walls, i + 1, best, min)
  {
  }

  lemma {:induction false} ChaseFoldFrom(p: Pose, w: int, h: int, tx: int, ty: int, walls: seq<Box>,
                                         i: int, best: Dir, min: Option<int>)
    requires ChaseSoFar(p, w, h, tx, ty, walls, i, best, min)
    ensures GreedyChoice(p, w, h, tx, ty, walls, ChaseFold(Headings[i..], p, w, h, tx, ty, walls, best, min))
    decreases |Headings| - i
  {
    if i == |Headings| {
      ChaseSoFarComplete(p, w, h, tx, ty, walls, best, min);
    } else {
      var d := Headings[i];
      assert Headings[i..][0] == d && Headings[i..][1..] == Headings[i + 1..];
      ChaseSoFarStep(p, w, h, tx, ty, walls, i, best, min);
      if ChaseCandidate(p, w, h, d, walls) && (min.None? || ChaseDistance(p, d, tx, ty) < min.value) {
        ChaseFoldFrom(p, w, h, tx, ty, walls, i + 1, d, Some(ChaseDistance(p, d, tx, ty)));
      } else {
        ChaseFoldFrom(p, w, h, tx, ty, walls, i + 1, best, min);
      }
    }
  }

  /** `chooseBestChaseDirection` is greedy Manhattan pursuit: it never
      chooses the reverse heading, chooses the first candidate of least
      distance, and keeps the current heading when nothing is a candidate. */
  lemma BestChaseIsGreedy(p: Pose, w: int, h: int, tx: int, ty: int, walls: seq<Box>)
    ensures var r := BestChase(p, w, h, Some((tx, ty)), walls).value;
      GreedyChoice(p, w, h, tx, ty, walls, r) && r != Opposite(p.dir)
  {
    ChaseFoldFrom(p, w, h, tx, ty, walls, 0, p.dir, None);
  }

  /** The position of a possibly absent pacman. */
  function PositionOf(pacman: Actor?): Option<(int, int)>
    reads pacman
  {
    if pacman == null then None else Some((pacman.x, pacman.y))
  }

  /** `chooseBestChaseDirection(ghost)`. */
  method ChooseBestChaseDirection(g: Actor, pacman: Actor?, walls: seq<Box>) returns (r: Option<Dir>)
    ensures r == BestChase(g.State(), g.w, g.h, PositionOf(pacman), walls)
    ensures r.None? <==> pacman == null
    ensures r.Some? ==>
              r.value != Opposite(g.dir) &&
              GreedyChoice(g.State(), g.w, g.h, pacman.x, pacman.y, walls, r.value)
  {
    if pacman == null {
      return None;
    }
    ghost var p := g.State();
    var speed := TileSize / 4;
    var bestDirection := g.dir;
    var minDistance: Option<int> := None;
    var possibleDirections := [U, D, L, R];
    var i := 0;
    while i < |possibleDirections|
      invariant 0 <= i <= |possibleDirections|
      invariant ChaseFold(Headings[i..], p, g.w, g.h, pacman.x, pacman.y, walls, bestDirection, minDistance)
             == ChaseFold(Headings, p, g.w, g.h, pacman.x, pacman.y, walls, p.dir, None)
    {
      var direction := possibleDirections[i];
      assert Headings[i..][0] == direction && Headings[i..][1..] == Headings[i + 1..];
      if direction == Opposite(g.dir) {
        i := i + 1;
        continue;
      }
      var tempX, tempY := g.x, g.y;
      if direction == U {
        tempY := tempY - speed;
      } else if direction == D {
        tempY := tempY + speed;
      } else if direction == L {
        tempX := tempX - speed;
      } else if direction == R {
        tempX := tempX + speed;
      }
      assert tempX == p.x + Velocity(direction).0 && tempY == p.y + Velocity(direction).1;
      assert Box(tempX, tempY, g.w, g.h) == Projected(p, g.w, g.h, direction);
      var collidesWithWall := CollidesWithAnyWall(Box(tempX, tempY, g.w, g.h), walls);
      if collidesWithWall {
        i := i + 1;
        continue;
      }
      var newDist := Abs(tempX - pacman.x) + Abs(tempY - pacman.y);
      assert newDist == ChaseDistance(p, direction, pacman.x, pacman.y);
      if minDistance.None? || newDist < minDistance.value {
        minDistance := Some(newDist);
        bestDirection := direction;
      }
      i := i + 1;
    }
    r := Some(bestDirection);
    BestChaseIsGreedy(p, g.w, g.h, pacman.x, pacman.y, walls);
  }

  /** `ghost.image === chaserImage`: the ghost's colour is the one
      `assignChaser` drew; before any draw no ghost is the chaser. */
  predicate IsChaser(role: Role, chaser: Option<Color>) {
    chaser.Some? && role == Ghost(chaser.value)
  }

  /** The pen cells: row 9, columns 8 to 10, located with `Math.round`. */
  predicate InGhostHouse(p: Pose) {
    RoundToTile(p.y) == 9 && (RoundToTile(p.x) == 8 || RoundToTile(p.x) == 9 || RoundToTile(p.x) == 10)
  }

  /** The house-exit override: in the pen, head Up when Up is movable. The
      look-ahead recomputes the velocity from the current heading either way. */
  function HouseExit(p: Pose, w: int, h: int, walls: seq<Box>): Pose {
    if InGhostHouse(p) then
      var q := Heading(p, p.dir);
      if CanMove(p, w, h, U, walls) then Heading(q, U) else q
    else p
  }

  /** Apply the current velocity. */
  function Advance(p: Pose): Pose {
    p.(x := p.x + p.vx, y := p.y + p.vy)
  }

  /** `Math.abs(ghost.x % tileSize) < 4 && Math.abs(ghost.y % tileSize) < 4`. */
  predicate AtTileCentre(p: Pose) {
    Abs(JsRem(p.x, TileSize)) < 4 && Abs(JsRem(p.y, TileSize)) < 4
  }

  /** The intersection decision: near a tile centre, snap to it, then the
      chaser pursues and every other ghost wanders. */
  function Decide(p: Pose, w: int, h: int, chaser: bool, target: Option<(int, int)>,
                  walls: seq<Box>, order: seq<Dir>): Pose {
    if AtTileCentre(p) then
      var s := p.(x := Snap(p.x), y := Snap(p.y));
      if chaser then
        var best := BestChase(s, w, h, target, walls);
        if best.Some? then Heading(s, best.value) else s
      else ChooseNew(s, w, h, walls, order)
    else p
  }

  /** The wall rollback: when some wall is present and the ghost is blocked,
      step back by the velocity in force now (which the decision may have
      changed), stop, and choose a new heading. */
  function Rebound(p: Pose, w: int, h: int, walls: seq<Box>, order: seq<Dir>): Pose {
    if |walls| > 0 && Blocked(Box(p.x, p.y, w, h), walls) then
      ChooseNew(Halt(p.(x := p.x - p.vx, y := p.y - p.vy)), w, h, walls, order)
    else p
  }

  /** One ghost's turn in `move` after the contact test. */
  function GhostTick(p: Pose, w: int, h: int, chaser: bool, target: Option<(int, int)>,
                     walls: seq<Box>, turnOrder: seq<Dir>, reboundOrder: seq<Dir>): Pose {
    Rebound(Decide(Advance(HouseExit(p, w, h, walls)), w, h, chaser, target, walls, turnOrder),
            w, h, walls, reboundOrder)
  }

  /** At a tile centre the chaser never turns back: the pursuit excludes the
      reverse heading, and keeps the current one when nothing else is open. */
  lemma ChaserNeverReversesAtTileCentre(p: Pose, w: int, h: int, tx: int, ty: int,
                                        walls: seq<Box>, order: seq<Dir>)
    requires AtTileCentre(p)
    ensures Decide(p, w, h, true, Some((tx, ty)), walls, order).dir != Opposite(p.dir)
  {
    var s := p.(x := Snap(p.x), y := Snap(p.y));
    BestChaseIsGreedy(s, w, h, tx, ty, walls);
  }

  /** At a tile centre a wandering ghost turns back only when every other
      heading is blocked at the snapped position. */
  lemma WandererReversesOnlyWhenCornered(p: Pose, w: int, h: int, walls: seq<Box>, order: seq<Dir>)
    requires AtTileCentre(p) && IsShuffle(order)
    ensures var s := p.(x := Snap(p.x), y := Snap(p.y));
      Decide(p, w, h, false, None, walls, order).dir == Opposite(p.dir) ==>
        forall d :: d != Opposite(p.dir) ==> !CanMove(s, w, h, d, walls)
  {
    var s := p.(x := Snap(p.x), y := Snap(p.y));
    ChooseNewOutcomes(s, w, h, walls, order);
  }

  /** The wall scan of the rollback. Its board-bounds test sits inside the
      loop over the walls, so it is made only when some wall exists. */
  method NeedsRollback(b: Box, walls: seq<Box>) returns (hit: bool)
    ensures hit <==> |walls| > 0 && Blocked(b, walls)
  {
    hit := false;
    var i := 0;
    while i < |walls|
      invariant 0 <= i <= |walls|
      invariant forall j :: 0 <= j < i ==> !Collision(b, walls[j])
      invariant i > 0 ==> InBounds(b)
    {
      if Collision(b, walls[i]) || b.x < 0 || b.x + b.w > BoardWidth || b.y < 0 || b.y + b.h > BoardHeight {
        hit := true;
        break;
      }
      i := i + 1;
    }
  }

  /** Step 1 of the ghost loop body in `move`: "Ghost House Exit". */
  method ExitHouse(g: Actor, walls: seq<Box>)
    modifies g
    ensures g.State() == HouseExit(old(g.State()), g.w, g.h, walls)
  {
    var currentTileCol := RoundToTile(g.x);
    var currentTileRow := RoundToTile(g.y);
    if currentTileRow == 9 && (currentTileCol == 8 || currentTileCol == 9 || currentTileCol == 10) {
      var ok := g.CanMoveInDirection(U, walls);
      if ok {
        g.dir := U;
        g.UpdateVelocity();
      }
    }
  }

  /** Step 2, "PATHING LOGIC": near a tile centre, snap and decide. */
  method TurnAtTileCentre(g: Actor, chaser: Option<Color>, pacman: Actor?, walls: seq<Box>, order: seq<Dir>)
    requires g != pacman
    modifies g
    ensures g.State() == Decide(old(g.State()), g.w, g.h, IsChaser(g.role, chaser), PositionOf(pacman),
                                walls, order)
  {
    if Abs(JsRem(g.x, TileSize)) < 4 && Abs(JsRem(g.y, TileSize)) < 4 {
      var col := RoundToTile(g.x);
      var row := RoundToTile(g.y);
      g.x, g.y := col * TileSize, row * TileSize;
      if IsChaser(g.role, chaser) {
        var bestDirection := ChooseBestChaseDirection(g, pacman, walls);
        if bestDirection.Some? {
          g.dir := bestDirection.value;
          g.UpdateVelocity();
        }
      } else {
        g.ChooseNewDirection(walls, order);
      }
    }
  }

  /** Step 3: the wall rollback. */
  method RollBackFromWall(g: Actor, walls: seq<Box>, order: seq<Dir>)
    modifies g
    ensures g.State() == Rebound(old(g.State()), g.w, g.h, walls, order)
  {
    var hitWall := NeedsRollback(g.Bounds(), walls);
    if hitWall {
      g.x, g.y := g.x - g.vx, g.y - g.vy;
      g.vx, g.vy := 0, 0;
      g.ChooseNewDirection(walls, order);
    }
  }

  /** The body of the ghost loop in `move` for a ghost that does not touch
      pacman, with the two shuffles it may draw supplied. */
  method MoveGhost(g: Actor, chaser: Option<Color>, pacman: Actor?, walls: seq<Box>,
                   turnOrder: seq<Dir>, reboundOrder: seq<Dir>)
    requires g != pacman
    modifies g
    ensures g.State() == GhostTick(old(g.State()), g.w, g.h, IsChaser(g.role, chaser), PositionOf(pacman),
                                   walls, turnOrder, reboundOrder)
  {
    ghost var p0 := g.State();
    ghost var target := PositionOf(pacman);
    ExitHouse(g, walls);
    ghost var p1 := g.State();
    g.x, g.y := g.x + g.vx, g.y + g.vy;
    assert g.State() == Advance(p1);
    TurnAtTileCentre(g, chaser, pacman, walls, turnOrder);
    ghost var p2 := g.State();
    assert p2 == Decide(Advance(HouseExit(p0, g.w, g.h, walls)), g.w, g.h, IsChaser(g.role, chaser), target, walls, turnOrder);
    RollBackFromWall(g, walls, reboundOrder);
  }
}

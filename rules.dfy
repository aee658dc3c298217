/** The game rules of pacman.js as functions on a value: `World` holds
    everything `move`, `loadMap`, `startGame`, `resetGame`, `update` and
    `handleInput` read or write, and each of those operations is specified
    by a function from the World before to the World after. The `Session`
    class of module Game runs the operations in place and is proved
    against these functions. */
module Rules {
  import opened Wrappers
  import opened Geometry
  import opened WorldMap
  import opened Actors
  import opened GhostAI

  /** Points per pellet, and the lives of a new game. */
  const Reward: int := 10
  const StartingLives: int := 3

  /** What the rules see of a Block that moves: its sprite, size, spawn
      position and pose. */
  datatype Body = Body(role: Role, w: int, h: int, startX: int, startY: int, pose: Pose)

  function BoxOf(b: Body): Box {
    Box(b.pose.x, b.pose.y, b.w, b.h)
  }

  /** The globals of the game: the wall, food and ghost Sets (in insertion
      order), the optional pacman, score, lives, the four flags and the
      chaser drawn by `assignChaser` (None before the first draw). */
  datatype World = World(walls: seq<Box>, foods: seq<Box>, ghosts: seq<Body>, pacman: Option<Body>,
                         score: int, lives: int, gameOver: bool, gameStarted: bool,
                         scoreSubmitted: bool, paused: bool, chaser: Option<Color>)

  /** The source of the shuffles `Math.random` drives: shuffle slot i of
      an operation; slots past the end give the fixed order U, D, L, R. */
  function OrderAt(rng: seq<seq<Dir>>, i: int): seq<Dir> {
    if 0 <= i < |rng| then rng[i] else Headings
  }

  /** The invariant of a session: lives between 0 and 3, a score that is a
      non-negative multiple of 10, no game over with lives left, walls on
      the tile grid, and a 32x32 pacman that neither stands nor respawns on
      a wall or off the board. */
  predicate Sane(s: World) {
    0 <= s.lives <= StartingLives && 0 <= s.score && s.score % Reward == 0 &&
    (s.gameOver ==> s.lives == 0) &&
    (forall i :: 0 <= i < |s.walls| ==> GridTile(s.walls[i])) &&
    (s.pacman.Some? ==> Clear(s.pacman.value, s.walls))
  }

  predicate Clear(b: Body, walls: seq<Box>) {
    b.w == TileSize && b.h == TileSize &&
    !Blocked(BoxOf(b), walls) && !Blocked(Box(b.startX, b.startY, b.w, b.h), walls)
  }

  // ---------------------------------------------------------------- loadMap

  /** `new Block(image, x, y, tileSize, tileSize)` for cell (r, c). */
  function Spawn(role: Role, r: int, c: int): Body {
    var b := TileBox(r, c);
    Body(role, TileSize, TileSize, b.x, b.y, Pose(b.x, b.y, R, 0, 0))
  }

  /** The ghosts created before the loops reach (r, c), in insertion order. */
  function GhostsBefore(m: seq<string>, r: int, c: int): seq<Body>
    requires Shaped(m) && Stop(r, c)
    decreases r, c
  {
    if c > 0 then
      var g := GhostOf(CharAt(m, r, c - 1));
      GhostsBefore(m, r, c - 1) + (if g.Some? then [Spawn(Ghost(g.value), r, c - 1)] else [])
    else if r > 0 then GhostsBefore(m, r - 1, ColumnCount)
    else []
  }

  /** One ghost per ghost letter among the cells visited, spawned on its
      cell with its letter's colour. */
  lemma {:induction false} GhostsBeforeMembers(m: seq<string>, r: int, c: int)
    requires Shaped(m) && Stop(r, c)
    ensures forall b :: b in GhostsBefore(m, r, c) <==>
      exists i, j :: Earlier(i, j, r, c) && GhostOf(CharAt(m, i, j)).Some? &&
                     b == Spawn(Ghost(GhostOf(CharAt(m, i, j)).value), i, j)
    decreases r, c
  {
    if c > 0 {
      GhostsBeforeMembers(m, r, c - 1);
    } else if r > 0 {
      GhostsBeforeMembers(m, r - 1, ColumnCount);
    }
  }

  /** The pacman created before the loops reach (r, c): on the last 'P'. */
  function PacmanBefore(m: seq<string>, r: int, c: int): Option<Body>
    requires Shaped(m) && Stop(r, c)
  {
    var pc := PacmanCellBefore(m, r, c);
    if pc.Some? then Some(Spawn(Player, pc.value.0, pc.value.1)) else None
  }

  /** `loadMap(fullLoad, wallsOnly)` on the grid m: every entity is
      cleared, walls are rebuilt when either flag is set, and pellets,
      ghosts and pacman only on a full load that is not walls-only. */
  function Loaded(s: World, m: seq<string>, fullLoad: bool, wallsOnly: bool): World
    requires Shaped(m)
  {
    var entities := fullLoad && !wallsOnly;
    s.(walls := if fullLoad || wallsOnly then WallsBefore(m, RowCount, 0) else [],
       foods := if entities then FoodsBefore(m, RowCount, 0) else [],
       ghosts := if entities then GhostsBefore(m, RowCount, 0) else [],
       pacman := if entities then PacmanBefore(m, RowCount, 0) else None)
  }

  /** What `loadMap` builds: a 32x32 wall exactly at each 'X' cell (when
      walls are loaded), a 4x4 pellet exactly at each ' ', 'P' or ghost
      cell, one ghost per ghost letter with that letter's colour, and
      pacman at the last 'P'; with neither flag everything is empty. The
      score, lives and flags are untouched. */
  lemma LoadedContents(s: World, m: seq<string>, fullLoad: bool, wallsOnly: bool)
    requires Shaped(m)
    ensures var t := Loaded(s, m, fullLoad, wallsOnly);
      t.score == s.score && t.lives == s.lives && t.gameOver == s.gameOver &&
      t.gameStarted == s.gameStarted && t.scoreSubmitted == s.scoreSubmitted &&
      t.paused == s.paused && t.chaser == s.chaser &&
      ((fullLoad || wallsOnly) ==>
         forall b :: b in t.walls <==>
           exists i, j :: Earlier(i, j, RowCount, 0) && CharAt(m, i, j) == 'X' && b == TileBox(i, j)) &&
      (fullLoad && !wallsOnly ==>
         (forall b :: b in t.foods <==>
            exists i, j :: Earlier(i, j, RowCount, 0) && IsFoodChar(CharAt(m, i, j)) && b == FoodBox(i, j)) &&
         (forall b :: b in t.ghosts <==>
            exists i, j :: Earlier(i, j, RowCount, 0) && GhostOf(CharAt(m, i, j)).Some? &&
                           b == Spawn(Ghost(GhostOf(CharAt(m, i, j)).value), i, j)) &&
         (t.pacman.Some? <==> exists i, j :: Earlier(i, j, RowCount, 0) && CharAt(m, i, j) == 'P')) &&
      (!fullLoad && !wallsOnly ==> t.walls == [] && t.foods == [] && t.ghosts == [] && t.pacman.None?) &&
      (wallsOnly ==> t.foods == [] && t.ghosts == [] && t.pacman.None?)
  {
    WallsBeforeMembers(m, RowCount, 0);
    FoodsBeforeMembers(m, RowCount, 0);
    GhostsBeforeMembers(m, RowCount, 0);
    PacmanCellBeforeIsLastP(m, RowCount, 0);
  }

  /** A load keeps the session invariant: the loaded walls are grid tiles
      and pacman spawns on an open cell. */
  lemma LoadedKeepsSane(s: World, m: seq<string>, fullLoad: bool, wallsOnly: bool)
    requires Shaped(m) && Sane(s)
    ensures Sane(Loaded(s, m, fullLoad, wallsOnly))
  {
    WallsAreTiles(m);
    PacmanCellBeforeIsLastP(m, RowCount, 0);
    var pc := PacmanCellBefore(m, RowCount, 0);
    if fullLoad && !wallsOnly && pc.Some? {
      OpenCellIsClear(m, pc.value.0, pc.value.1);
    }
  }

  // ------------------------------------------------------------------- move

  /** Pacman's step in `move`: apply the velocity, and when the new box
      leaves the board or overlaps a wall, step back and stop. (After the
      board-bounds rollback the wall loop subtracts a zero velocity, so both
      rollbacks end in the same pose.) */
  function PacmanStep(p: Pose, w: int, h: int, walls: seq<Box>): Pose {
    var q := Advance(p);
    if Blocked(Box(q.x, q.y, w, h), walls) then Halt(p) else q
  }

  /** The rollback restores the position before the step and zeroes the
      velocity; a step that is not rolled back lands on a clear box. A
      pacman that stood clear therefore stays clear. */
  lemma PacmanStepOutcomes(p: Pose, w: int, h: int, walls: seq<Box>)
    ensures var q := PacmanStep(p, w, h, walls);
      q.dir == p.dir &&
      (Blocked(Box(p.x + p.vx, p.y + p.vy, w, h), walls) ==> q.x == p.x && q.y == p.y && q.vx == 0 && q.vy == 0) &&
      (!Blocked(Box(p.x + p.vx, p.y + p.vy, w, h), walls) ==> q == Advance(p)) &&
      (!Blocked(Box(p.x, p.y, w, h), walls) ==> !Blocked(Box(q.x, q.y, w, h), walls))
  {
  }

  /** The index of the first box that overlaps b, |boxes| when none does. */
  function FirstOverlap(b: Box, boxes: seq<Box>): (k: int)
    ensures 0 <= k <= |boxes|
    ensures forall j :: 0 <= j < k ==> !Collision(b, boxes[j])
    ensures k < |boxes| ==> Collision(b, boxes[k])
  {
    if boxes == [] then 0
    else if Collision(b, boxes[0]) then 0
    else 1 + FirstOverlap(b, boxes[1..])
  }

  /** Any index with no overlap before it and an overlap at it (or at the
      end) is the first overlap. */
  lemma FirstOverlapUnique(b: Box, boxes: seq<Box>, k: int)
    requires 0 <= k <= |boxes|
    requires forall j :: 0 <= j < k ==> !Collision(b, boxes[j])
    requires k < |boxes| ==> Collision(b, boxes[k])
    ensures FirstOverlap(b, boxes) == k
  {
  }

  /** The loop of `move` that finds the first pellet pacman overlaps. */
  method FirstCollision(b: Box, boxes: seq<Box>) returns (k: int)
    ensures k == FirstOverlap(b, boxes)
  {
    k := 0;
    while k < |boxes|
      invariant 0 <= k <= |boxes|
      invariant FirstOverlap(b, boxes[k..]) + k == FirstOverlap(b, boxes)
    {
      assert boxes[k..][1..] == boxes[k + 1..];
      if Collision(b, boxes[k]) {
        break;
      }
      k := k + 1;
    }
  }

  function GhostBoxes(gs: seq<Body>): (r: seq<Box>)
    ensures |r| == |gs|
  {
    seq(|gs|, i requires 0 <= i < |gs| => BoxOf(gs[i]))
  }

  /** One ghost's turn (house exit, step, decision, rollback); the i-th
      ghost draws shuffles 2i and 2i + 1. */
  function GhostTurn(b: Body, i: int, chaser: Option<Color>, target: Option<(int, int)>,
                     walls: seq<Box>, rng: seq<seq<Dir>>): Body {
    b.(pose := GhostTick(b.pose, b.w, b.h, IsChaser(b.role, chaser), target, walls,
                         OrderAt(rng, 2 * i), OrderAt(rng, 2 * i + 1)))
  }

  /** The ghosts after the first n have taken their turn. */
  function TickGhosts(gs: seq<Body>, n: int, chaser: Option<Color>, target: Option<(int, int)>,
                      walls: seq<Box>, rng: seq<seq<Dir>>): (r: seq<Body>)
    ensures |r| == |gs|
  {
    seq(|gs|, i requires 0 <= i < |gs| => if i < n then GhostTurn(gs[i], i, chaser, target, walls, rng) else gs[i])
  }

  /** Ghost contact: with one life left (or none) the game is over,
      otherwise one life is lost and the death pause begins. */
  function Caught(s: World): World {
    if s.lives <= 1 then s.(lives := 0, gameOver := true, gameStarted := false)
    else s.(lives := s.lives - 1, paused := true)
  }

  /** Pacman eats the first pellet it overlaps, if any, for 10 points. */
  function Feed(s: World, pb: Box): World {
    var k := FirstOverlap(pb, s.foods);
    if k < |s.foods| then s.(foods := s.foods[..k] + s.foods[k + 1..], score := s.score + Reward)
    else s
  }

  /** An empty pellet set ends the level. */
  function Cleared(s: World): World {
    if |s.foods| == 0 then s.(gameStarted := false) else s
  }

  /** `move`: nothing unless the game runs with a pacman and no death
      pause; otherwise pacman steps; the ghosts then take their turns in
      order until one touches pacman, which ends the tick; with no contact
      pacman eats and the level may end. */
  function Step(s: World, rng: seq<seq<Dir>>): World {
    if !s.gameStarted || s.pacman.None? || s.paused then s
    else
      var pac := s.pacman.value;
      var moved := pac.(pose := PacmanStep(pac.pose, pac.w, pac.h, s.walls));
      var pb := BoxOf(moved);
      var k := FirstOverlap(pb, GhostBoxes(s.ghosts));
      var s1 := s.(pacman := Some(moved),
                   ghosts := TickGhosts(s.ghosts, k, s.chaser, Some((moved.pose.x, moved.pose.y)), s.walls, rng));
      if k < |s.ghosts| then Caught(s1) else Cleared(Feed(s1, pb))
  }

  /** Whether `move` has a ghost touch pacman on this tick. */
  predicate Contact(s: World) {
    s.gameStarted && s.pacman.Some? && !s.paused &&
    var pac := s.pacman.value;
    var moved := pac.(pose := PacmanStep(pac.pose, pac.w, pac.h, s.walls));
    FirstOverlap(BoxOf(moved), GhostBoxes(s.ghosts)) < |s.ghosts|
  }

  /** `move` does nothing while the game is not running, pacman is absent
      or the death pause is on; walls, the chaser and the score-submitted
      flag are never changed by it. */
  lemma StepGuard(s: World, rng: seq<seq<Dir>>)
    ensures !s.gameStarted || s.pacman.None? || s.paused ==> Step(s, rng) == s
    ensures var t := Step(s, rng);
      t.walls == s.walls && t.chaser == s.chaser && t.scoreSubmitted == s.scoreSubmitted &&
      |t.ghosts| == |s.ghosts| && t.pacman.Some? == s.pacman.Some?
  {
  }

  /** On contact there are exactly two outcomes: with lives <= 1 the lives
      become 0, the game is over and stopped; otherwise exactly one life is
      lost and the death pause begins. Either way no pellet is eaten, the
      score is kept, and the touching ghost and every later one are left
      as they were. */
  lemma StepContact(s: World, rng: seq<seq<Dir>>)
    requires Contact(s)
    ensures var t := Step(s, rng);
      var k := FirstOverlap(BoxOf(t.pacman.value), GhostBoxes(s.ghosts));
      (s.lives <= 1 ==> t.lives == 0 && t.gameOver && !t.gameStarted && t.paused == s.paused) &&
      (s.lives > 1 ==> t.lives == s.lives - 1 && t.paused && t.gameOver == s.gameOver && t.gameStarted) &&
      t.foods == s.foods && t.score == s.score &&
      k < |s.ghosts| && forall j :: k <= j < |s.ghosts| ==> t.ghosts[j] == s.ghosts[j]
  {
  }

  /** Eating removes nothing, or exactly the first pellet that overlaps
      pacman's box and 10 points are added. */
  lemma FeedEatsAtMostOne(s: World, pb: Box)
    ensures var t := Feed(s, pb);
      t.(foods := s.foods, score := s.score) == s &&
      ((t.foods == s.foods && t.score == s.score && forall f :: f in s.foods ==> !Collision(pb, f)) ||
       (|t.foods| == |s.foods| - 1 && t.score == s.score + Reward &&
        exists k :: 0 <= k < |s.foods| && Collision(pb, s.foods[k]) &&
          multiset(t.foods) + multiset{s.foods[k]} == multiset(s.foods)))
  {
    var k := FirstOverlap(pb, s.foods);
    if k < |s.foods| {
      var t := Feed(s, pb);
      assert t.foods == s.foods[..k] + s.foods[k + 1..];
      assert s.foods == s.foods[..k] + [s.foods[k]] + s.foods[k + 1..];
      assert multiset(t.foods) + multiset{s.foods[k]} == multiset(s.foods);
    } else {
      forall f | f in s.foods
        ensures !Collision(pb, f)
      {
        var j :| 0 <= j < |s.foods| && s.foods[j] == f;
      }
    }
  }

  /** Per tick at most one pellet goes: either the pellets are kept and so
      is the score, or exactly one pellet that overlaps pacman's new box is
      removed and the score rises by exactly 10. */
  lemma StepEatsAtMostOne(s: World, rng: seq<seq<Dir>>)
    ensures var t := Step(s, rng);
      (t.foods == s.foods && t.score == s.score) ||
      (|t.foods| == |s.foods| - 1 && t.score == s.score + Reward && t.pacman.Some? &&
       exists k :: 0 <= k < |s.foods| && Collision(BoxOf(t.pacman.value), s.foods[k]) &&
         multiset(t.foods) + multiset{s.foods[k]} == multiset(s.foods))
  {
    if s.gameStarted && s.pacman.Some? && !s.paused {
      var pac := s.pacman.value;
      var moved := pac.(pose := PacmanStep(pac.pose, pac.w, pac.h, s.walls));
      var pb := BoxOf(moved);
      var k := FirstOverlap(pb, GhostBoxes(s.ghosts));
      var s1 := s.(pacman := Some(moved),
                   ghosts := TickGhosts(s.ghosts, k, s.chaser, Some((moved.pose.x, moved.pose.y)), s.walls, rng));
      if k == |s.ghosts| {
        FeedEatsAtMostOne(s1, pb);
        assert Step(s, rng) == Cleared(Feed(s1, pb));
      }
    }
  }

  /** A tick without contact that leaves no pellet clears `gameStarted`;
      a tick without contact never clears it otherwise. */
  lemma StepLevelClear(s: World, rng: seq<seq<Dir>>)
    requires s.gameStarted && s.pacman.Some? && !s.paused && !Contact(s)
    ensures var t := Step(s, rng);
      (t.gameStarted <==> |t.foods| > 0) && t.lives == s.lives && t.gameOver == s.gameOver && !t.paused
  {
  }

  /** `move` keeps the session invariant; in particular lives never go
      below zero and pacman never ends a tick inside a wall. */
  lemma StepKeepsSane(s: World, rng: seq<seq<Dir>>)
    requires Sane(s)
    ensures Sane(Step(s, rng))
    ensures Step(s, rng).lives == s.lives || Step(s, rng).lives == s.lives - 1 || Step(s, rng).lives == 0
  {
    if s.gameStarted && s.pacman.Some? && !s.paused {
      var pac := s.pacman.value;
      PacmanStepOutcomes(pac.pose, pac.w, pac.h, s.walls);
      var moved := pac.(pose := PacmanStep(pac.pose, pac.w, pac.h, s.walls));
      var pb := BoxOf(moved);
      var k := FirstOverlap(pb, GhostBoxes(s.ghosts));
      var s1 := s.(pacman := Some(moved),
                   ghosts := TickGhosts(s.ghosts, k, s.chaser, Some((moved.pose.x, moved.pose.y)), s.walls, rng));
      assert Clear(moved, s.walls);
      assert Sane(s1);
      if k >= |s.ghosts| {
        var s2 := Feed(s1, pb);
        assert s2.score == s1.score || s2.score == s1.score + Reward;
        assert Sane(s2);
      }
    }
  }

  // ------------------------------------------------------------ handleInput

  /** The heading a key asks for; any other key keeps pacman's heading. */
  function KeyHeading(code: string, current: Dir): Dir {
    if code == "ArrowUp" || code == "KeyW" then U
    else if code == "ArrowDown" || code == "KeyS" then D
    else if code == "ArrowLeft" || code == "KeyA" then L
    else if code == "ArrowRight" || code == "KeyD" then R
    else current
  }

  /** `handleInput`: ignored unless the game runs, is not over, has a
      pacman and is not paused; otherwise pacman attempts the key's turn. */
  function Steer(s: World, code: string): World {
    if !s.gameStarted || s.gameOver || s.pacman.None? || s.paused then s
    else
      var pac := s.pacman.value;
      s.(pacman := Some(pac.(pose := Attempt(pac.pose, pac.w, pac.h, s.walls, KeyHeading(code, pac.pose.dir)))))
  }

  /** A key press changes nothing but pacman's pose; the arrows and WASD
      ask for their heading and a turn of a stopped pacman always takes. */
  lemma SteerOutcomes(s: World, code: string)
    ensures var t := Steer(s, code);
      t.(pacman := s.pacman) == s &&
      (!s.gameStarted || s.gameOver || s.pacman.None? || s.paused ==> t == s) &&
      (s.gameStarted && !s.gameOver && s.pacman.Some? && !s.paused &&
       s.pacman.value.pose.vx == 0 && s.pacman.value.pose.vy == 0 ==>
         (code == "ArrowUp" || code == "KeyW" ==> t.pacman.value.pose.dir == U) &&
         (code == "ArrowDown" || code == "KeyS" ==> t.pacman.value.pose.dir == D) &&
         (code == "ArrowLeft" || code == "KeyA" ==> t.pacman.value.pose.dir == L) &&
         (code == "ArrowRight" || code == "KeyD" ==> t.pacman.value.pose.dir == R))
  {
  }

  /** A key press keeps the session invariant: a turn that is taken snaps
      pacman onto the tile it is closest to, which is clear. */
  lemma SteerKeepsSane(s: World, code: string)
    requires Sane(s)
    ensures Sane(Steer(s, code))
  {
    if s.gameStarted && !s.gameOver && s.pacman.Some? && !s.paused {
      var p := s.pacman.value.pose;
      SnapKeepsClear(p.x, p.y, s.walls);
    }
  }

  // ------------------------------------------------- resetPositions / start

  /** `reset`: back to the spawn position, facing right, at rest. */
  function Respawn(b: Body): Body {
    b.(pose := Pose(b.startX, b.startY, R, 0, 0))
  }

  /** Zero velocity, heading kept. */
  function Stopped(b: Body): Body {
    b.(pose := Halt(b.pose))
  }

  /** `ghost.chooseNewDirection()` with the shuffle `order`. */
  function Turned(b: Body, walls: seq<Box>, order: seq<Dir>): Body {
    b.(pose := ChooseNew(b.pose, b.w, b.h, walls, order))
  }

  /** Each ghost respawns and chooses a new heading with the i-th shuffle. */
  function Rehomed(gs: seq<Body>, walls: seq<Box>, rng: seq<seq<Dir>>): seq<Body> {
    seq(|gs|, i requires 0 <= i < |gs| => Turned(Respawn(gs[i]), walls, OrderAt(rng, i)))
  }

  /** `resetPositions`: pacman respawns, and so does every ghost, which
      then chooses a new heading. */
  function Repositioned(s: World, rng: seq<seq<Dir>>): World {
    s.(pacman := if s.pacman.Some? then Some(Respawn(s.pacman.value)) else None,
       ghosts := Rehomed(s.ghosts, s.walls, rng))
  }

  /** After `resetPositions` every actor stands on its spawn position;
      pacman faces right at rest, and a ghost that can leave its spawn
      cell in any heading but left does so. */
  lemma RepositionedOutcomes(s: World, rng: seq<seq<Dir>>)
    requires forall i :: 0 <= i < |rng| ==> IsShuffle(rng[i])
    ensures var t := Repositioned(s, rng);
      t.(pacman := s.pacman, ghosts := s.ghosts) == s && |t.ghosts| == |s.ghosts| &&
      (s.pacman.Some? ==> t.pacman.value.pose == Pose(s.pacman.value.startX, s.pacman.value.startY, R, 0, 0)) &&
      forall i :: 0 <= i < |s.ghosts| ==>
        var g := s.ghosts[i];
        var home := Pose(g.startX, g.startY, R, 0, 0);
        t.ghosts[i].pose.x == g.startX && t.ghosts[i].pose.y == g.startY &&
        ((exists d :: d != L && CanMove(home, g.w, g.h, d, s.walls)) ==>
           t.ghosts[i].pose.dir != L && CanMove(home, g.w, g.h, t.ghosts[i].pose.dir, s.walls))
  {
    var t := Repositioned(s, rng);
    forall i | 0 <= i < |s.ghosts|
      ensures var g := s.ghosts[i];
        var home := Pose(g.startX, g.startY, R, 0, 0);
        t.ghosts[i].pose.x == g.startX && t.ghosts[i].pose.y == g.startY &&
        ((exists d :: d != L && CanMove(home, g.w, g.h, d, s.walls)) ==>
           t.ghosts[i].pose.dir != L && CanMove(home, g.w, g.h, t.ghosts[i].pose.dir, s.walls))
    {
      var g := s.ghosts[i];
      var home := Pose(g.startX, g.startY, R, 0, 0);
      HeadingsIsShuffle();
      assert IsShuffle(OrderAt(rng, i));
      ChooseNewOutcomes(home, g.w, g.h, s.walls, OrderAt(rng, i));
    }
  }

  /** Step 2 of `startGame`: a new game gets score 0 and 3 lives while a
      restart keeps both; the game-over, score-submitted and pause flags
      are cleared and the chaser c is drawn. */
  function Rearmed(s: World, isRestart: bool, c: Color): World {
    var s1 := if isRestart then s else s.(score := 0, lives := StartingLives);
    s1.(gameOver := false, scoreSubmitted := false, paused := false, chaser := Some(c))
  }

  /** Every ghost stopped. */
  function Halted(gs: seq<Body>): seq<Body> {
    seq(|gs|, i requires 0 <= i < |gs| => Stopped(gs[i]))
  }

  /** Step 6 of `startGame`: every actor at rest. */
  function Still(s: World): World {
    s.(pacman := if s.pacman.Some? then Some(Stopped(s.pacman.value)) else None,
       ghosts := Halted(s.ghosts))
  }

  /** `startGame(isRestart)` up to its ready timer: positions are reset,
      the score, lives and flags are re-armed, and every actor is left at
      rest. */
  function Started(s: World, isRestart: bool, c: Color, rng: seq<seq<Dir>>): World {
    Still(Rearmed(Repositioned(s, rng), isRestart, c))
  }

  /** What `startGame` keeps and what it resets. */
  lemma StartedOutcomes(s: World, isRestart: bool, c: Color, rng: seq<seq<Dir>>)
    ensures var t := Started(s, isRestart, c, rng);
      (isRestart ==> t.score == s.score && t.lives == s.lives) &&
      (!isRestart ==> t.score == 0 && t.lives == StartingLives) &&
      !t.gameOver && !t.scoreSubmitted && !t.paused && t.chaser == Some(c) &&
      t.gameStarted == s.gameStarted && t.walls == s.walls && t.foods == s.foods &&
      |t.ghosts| == |s.ghosts| &&
      (forall i :: 0 <= i < |t.ghosts| ==> t.ghosts[i].pose.vx == 0 && t.ghosts[i].pose.vy == 0) &&
      (forall i :: 0 <= i < |t.ghosts| ==>
         t.ghosts[i].pose.x == s.ghosts[i].startX && t.ghosts[i].pose.y == s.ghosts[i].startY) &&
      (t.pacman.Some? <==> s.pacman.Some?) &&
      (t.pacman.Some? ==> t.pacman.value.pose == Pose(s.pacman.value.startX, s.pacman.value.startY, R, 0, 0))
  {
    var t := Started(s, isRestart, c, rng);
    var s1 := Repositioned(s, rng);
    assert |s1.ghosts| == |s.ghosts|;
    forall i | 0 <= i < |t.ghosts|
      ensures t.ghosts[i].pose.vx == 0 && t.ghosts[i].pose.vy == 0
    {
      assert t.ghosts[i] == Stopped(s1.ghosts[i]);
    }
  }

  lemma RepositionedKeepsSane(s: World, rng: seq<seq<Dir>>)
    requires Sane(s)
    ensures Sane(Repositioned(s, rng))
  {
  }

  lemma StartedKeepsSane(s: World, isRestart: bool, c: Color, rng: seq<seq<Dir>>)
    requires Sane(s)
    ensures Sane(Started(s, isRestart, c, rng))
  {
    RepositionedKeepsSane(s, rng);
  }

  /** `resetGame(keepMapLoaded)`: the map is reloaded (entities only when
      kept), score 0, 3 lives, every flag cleared; when the map is kept the
      map is loaded once more and a new game starts at once. */
  function Restarted(s: World, m: seq<string>, keepMapLoaded: bool, c: Color, rng: seq<seq<Dir>>): World
    requires Shaped(m)
  {
    var s1 := Loaded(s, m, keepMapLoaded, false).(score := 0, lives := StartingLives, gameOver := false,
                      gameStarted := false, scoreSubmitted := false, paused := false);
    if keepMapLoaded then Started(Loaded(s1, m, true, false), false, c, rng) else s1
  }

  /** After `resetGame` the score is 0, there are 3 lives and nothing is
      running; returning to the menu also empties the board. */
  lemma RestartedOutcomes(s: World, m: seq<string>, keepMapLoaded: bool, c: Color, rng: seq<seq<Dir>>)
    requires Shaped(m)
    ensures var t := Restarted(s, m, keepMapLoaded, c, rng);
      t.score == 0 && t.lives == StartingLives && !t.gameOver && !t.gameStarted &&
      !t.scoreSubmitted && !t.paused &&
      (!keepMapLoaded ==> t.walls == [] && t.foods == [] && t.ghosts == [] && t.pacman.None? && t.chaser == s.chaser) &&
      (keepMapLoaded ==> t.walls == WallsBefore(m, RowCount, 0) && t.foods == FoodsBefore(m, RowCount, 0) && t.chaser == Some(c))
  {
  }

  lemma RestartedKeepsSane(s: World, m: seq<string>, keepMapLoaded: bool, c: Color, rng: seq<seq<Dir>>)
    requires Shaped(m) && Sane(s)
    ensures Sane(Restarted(s, m, keepMapLoaded, c, rng))
  {
    LoadedKeepsSane(s, m, keepMapLoaded, false);
    var s1 := Loaded(s, m, keepMapLoaded, false).(score := 0, lives := StartingLives, gameOver := false,
                      gameStarted := false, scoreSubmitted := false, paused := false);
    if keepMapLoaded {
      LoadedKeepsSane(s1, m, true, false);
      StartedKeepsSane(Loaded(s1, m, true, false), false, c, rng);
    }
  }

  /** The start/reset button: before a game runs it loads the full map
      and starts a new game; while one runs it returns to the menu. */
  function Pressed(s: World, m: seq<string>, c: Color, rng: seq<seq<Dir>>): World
    requires Shaped(m)
  {
    if !s.gameStarted then Started(Loaded(s, m, true, false), false, c, rng)
    else Restarted(s, m, false, c, rng)
  }

  lemma PressedKeepsSane(s: World, m: seq<string>, c: Color, rng: seq<seq<Dir>>)
    requires Shaped(m) && Sane(s)
    ensures Sane(Pressed(s, m, c, rng))
  {
    if !s.gameStarted {
      LoadedKeepsSane(s, m, true, false);
      StartedKeepsSane(Loaded(s, m, true, false), false, c, rng);
    } else {
      RestartedKeepsSane(s, m, false, c, rng);
    }
  }

  // ----------------------------------------------------------------- update

  /** `update`: when the game is over, the score is marked submitted (the
      modal is shown once); when it is not running or paused, nothing;
      otherwise one `move`. */
  function Updated(s: World, rng: seq<seq<Dir>>): World {
    if s.gameOver then s.(scoreSubmitted := true)
    else if !s.gameStarted || s.paused then s
    else Step(s, rng)
  }

  /** The guards of `update`. */
  lemma UpdatedOutcomes(s: World, rng: seq<seq<Dir>>)
    ensures var t := Updated(s, rng);
      (s.gameOver ==> t == s.(scoreSubmitted := true)) &&
      (!s.gameOver && (!s.gameStarted || s.paused) ==> t == s) &&
      (t.scoreSubmitted <==> s.scoreSubmitted || s.gameOver)
  {
  }

  lemma UpdatedKeepsSane(s: World, rng: seq<seq<Dir>>)
    requires Sane(s)
    ensures Sane(Updated(s, rng))
  {
    StepKeepsSane(s, rng);
  }

  // ----------------------------------------------------------------- timers

  /** The ready timer of `startGame`: the game runs, each ghost chooses a
      heading with the i-th shuffle of `orders`, and `update` runs once. */
  function Ready(s: World, orders: seq<seq<Dir>>, rng: seq<seq<Dir>>): World {
    Updated(s.(gameStarted := true, ghosts := Redirected(s.ghosts, s.walls, orders)), rng)
  }

  /** Each ghost chooses a new heading with the i-th shuffle. */
  function Redirected(gs: seq<Body>, walls: seq<Box>, orders: seq<seq<Dir>>): seq<Body> {
    seq(|gs|, i requires 0 <= i < |gs| => Turned(gs[i], walls, OrderAt(orders, i)))
  }

  lemma ReadyKeepsSane(s: World, orders: seq<seq<Dir>>, rng: seq<seq<Dir>>)
    requires Sane(s)
    ensures Sane(Ready(s, orders, rng))
  {
    UpdatedKeepsSane(s.(gameStarted := true, ghosts := Redirected(s.ghosts, s.walls, orders)), rng);
  }

  /** The death-pause timer: positions reset and the pause ends. */
  function Revived(s: World, rng: seq<seq<Dir>>): World {
    Repositioned(s, rng).(paused := false)
  }

  lemma RevivedKeepsSane(s: World, rng: seq<seq<Dir>>)
    requires Sane(s)
    ensures Sane(Revived(s, rng))
  {
    RepositionedKeepsSane(s, rng);
  }

  /** The level-clear timer: full reload, positions reset, then a restart
      that keeps score and lives. */
  function NextLevel(s: World, m: seq<string>, c: Color, rng1: seq<seq<Dir>>, rng2: seq<seq<Dir>>): World
    requires Shaped(m)
  {
    Started(Repositioned(Loaded(s, m, true, false), rng1), true, c, rng2)
  }

  /** A new level keeps the score and lives and refills every pellet. */
  lemma NextLevelOutcomes(s: World, m: seq<string>, c: Color, rng1: seq<seq<Dir>>, rng2: seq<seq<Dir>>)
    requires Shaped(m) && Sane(s)
    ensures var t := NextLevel(s, m, c, rng1, rng2);
      Sane(t) && t.score == s.score && t.lives == s.lives && t.foods == FoodsBefore(m, RowCount, 0) &&
      !t.gameOver && !t.paused && t.gameStarted == s.gameStarted
  {
    LoadedKeepsSane(s, m, true, false);
    var s1 := Loaded(s, m, true, false);
    RepositionedKeepsSane(s1, rng1);
    StartedKeepsSane(Repositioned(s1, rng1), true, c, rng2);
  }
}

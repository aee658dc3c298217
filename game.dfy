/** The globals of pacman.js and the functions that change them in place:
    `loadMap`, `resetPositions`, `startGame`, `resetGame`, the start
    button, `move`, `update`, `handleInput`, and the bodies of the three
    `setTimeout` callbacks. Each method is proved to act on the session as
    the matching function of module Rules acts on its `World` value. */
module Game {
  import opened Wrappers
  import opened Geometry
  import opened WorldMap
  import opened Actors
  import opened GhostAI
  import opened Rules

  function BodyOf(a: Actor): Body
    reads a
  {
    Body(a.role, a.w, a.h, a.startX, a.startY, a.State())
  }

  function BodiesOf(gs: seq<Actor>): seq<Body>
    reads gs
  {
    seq(|gs|, i requires 0 <= i < |gs| reads gs => BodyOf(gs[i]))
  }

  /** When the loops of `loadMap` on the grid m stand at (r, c): the
      walls, ... */
  predicate WallsLoaded(m: seq<string>, walls: seq<Box>, r: int, c: int, fullLoad: bool, wallsOnly: bool) {
    Shaped(m) && Stop(r, c) &&
    walls == (if fullLoad || wallsOnly then WallsBefore(m, r, c) else [])
  }

  /** ... the pellets, ... */
  predicate FoodsLoaded(m: seq<string>, foods: seq<Box>, r: int, c: int, fullLoad: bool, wallsOnly: bool) {
    Shaped(m) && Stop(r, c) &&
    foods == (if fullLoad && !wallsOnly then FoodsBefore(m, r, c) else [])
  }

  /** ... and the ghosts and pacman, all distinct. */
  ghost predicate ActorsLoaded(m: seq<string>, ghosts: seq<Actor>, pacman: Actor?, r: int, c: int, fullLoad: bool, wallsOnly: bool)
    reads pacman, ghosts
  {
    Shaped(m) && Stop(r, c) &&
    var entities := fullLoad && !wallsOnly;
    BodiesOf(ghosts) == (if entities then GhostsBefore(m, r, c) else []) &&
    (if pacman == null then None else Some(BodyOf(pacman))) == (if entities then PacmanBefore(m, r, c) else None) &&
    (forall i, j :: 0 <= i < j < |ghosts| ==> ghosts[i] != ghosts[j]) &&
    (pacman != null ==> pacman !in ghosts)
  }

  /** Finishing row r is starting row r + 1. */
  lemma NextRow(m: seq<string>, walls: seq<Box>, foods: seq<Box>, ghosts: seq<Actor>, pacman: Actor?,
                r: int, fullLoad: bool, wallsOnly: bool)
    requires 0 <= r < RowCount
    requires WallsLoaded(m, walls, r, ColumnCount, fullLoad, wallsOnly)
    requires FoodsLoaded(m, foods, r, ColumnCount, fullLoad, wallsOnly)
    requires ActorsLoaded(m, ghosts, pacman, r, ColumnCount, fullLoad, wallsOnly)
    ensures WallsLoaded(m, walls, r + 1, 0, fullLoad, wallsOnly)
    ensures FoodsLoaded(m, foods, r + 1, 0, fullLoad, wallsOnly)
    ensures ActorsLoaded(m, ghosts, pacman, r + 1, 0, fullLoad, wallsOnly)
  {
  }

  /** The body of the ghost loop of `resetPositions`. */
  method Rehome(g: Actor, walls: seq<Box>, order: seq<Dir>)
    modifies g
    ensures BodyOf(g) == Turned(Respawn(old(BodyOf(g))), walls, order)
  {
    g.Reset();
    g.vx, g.vy := 0, 0;
    g.ChooseNewDirection(walls, order);
  }

  /** The turn of the i-th ghost in `move`, which draws shuffles 2i and
      2i + 1 of `rng`. */
  method TakeTurn(g: Actor, i: int, chaser: Option<Color>, pacman: Actor?, walls: seq<Box>, rng: seq<seq<Dir>>)
    requires g != pacman
    modifies g
    ensures BodyOf(g) == GhostTurn(old(BodyOf(g)), i, chaser, PositionOf(pacman), walls, rng)
  {
    MoveGhost(g, chaser, pacman, walls, OrderAt(rng, 2 * i), OrderAt(rng, 2 * i + 1));
  }

  /** Step 3 of `move`: the ghosts take their turns in order until one
      touches pacman, which is reported in caught. */
  method MoveGhosts(ghosts: seq<Actor>, pacman: Actor, chaser: Option<Color>, walls: seq<Box>, rng: seq<seq<Dir>>)
    returns (caught: bool)
    requires pacman !in ghosts
    requires forall i, j :: 0 <= i < j < |ghosts| ==> ghosts[i] != ghosts[j]
    modifies ghosts
    ensures var k := FirstOverlap(pacman.Bounds(), GhostBoxes(old(BodiesOf(ghosts))));
      caught == (k < |ghosts|) &&
      BodiesOf(ghosts) == TickGhosts(old(BodiesOf(ghosts)), k, chaser, PositionOf(pacman), walls, rng)
  {
    ghost var g0 := BodiesOf(ghosts);
    ghost var pb := pacman.Bounds();
    ghost var boxes := GhostBoxes(g0);
    ghost var target := PositionOf(pacman);
    caught := false;
    var i := 0;
    while i < |ghosts|
      invariant 0 <= i <= |ghosts|
      invariant pacman.Bounds() == pb && PositionOf(pacman) == target
      invariant forall j :: 0 <= j < i ==> !Collision(pb, boxes[j])
      invariant forall j :: 0 <= j < i ==> BodyOf(ghosts[j]) == GhostTurn(g0[j], j, chaser, target, walls, rng)
      invariant forall j :: i <= j < |ghosts| ==> BodyOf(ghosts[j]) == g0[j]
    {
      var g := ghosts[i];
      assert boxes[i] == g.Bounds();
      CollisionSymmetric(g.Bounds(), pacman.Bounds());
      if Collision(g.Bounds(), pacman.Bounds()) {
        caught := true;
        break;
      }
      TakeTurn(g, i, chaser, pacman, walls, rng);
      i := i + 1;
    }
    FirstOverlapUnique(pb, boxes, i);
    assert forall j :: 0 <= j < |ghosts| ==> BodiesOf(ghosts)[j] == TickGhosts(g0, i, chaser, target, walls, rng)[j];
  }

  /** Steps 1 and 2 of `move`: pacman applies its velocity, steps back
      and stops when it leaves the board, then steps back by its (possibly
      zeroed) velocity and stops when it overlaps a wall. */
  method StepPacman(p: Actor, walls: seq<Box>)
    modifies p
    ensures p.State() == PacmanStep(old(p.State()), p.w, p.h, walls)
  {
    p.x, p.y := p.x + p.vx, p.y + p.vy;
    if p.x < 0 || p.x + p.w > BoardWidth || p.y < 0 || p.y + p.h > BoardHeight {
      p.x, p.y := p.x - p.vx, p.y - p.vy;
      p.vx, p.vy := 0, 0;
    }
    var hit := CollidesWithAnyWall(p.Bounds(), walls);
    if hit {
      p.x, p.y := p.x - p.vx, p.y - p.vy;
      p.vx, p.vy := 0, 0;
    }
  }

  class Session {
    /** The maze `loadMap` reads; always `TileMap`. */
    const tileMap: seq<string>
    var walls: seq<Box>
    var foods: seq<Box>
    var ghosts: seq<Actor>
    var pacman: Actor?
    var score: int
    var lives: int
    var gameOver: bool
    var gameStarted: bool
    var scoreSubmitted: bool
    var gamePausedAfterDeath: bool
    var chaser: Option<Color>

    /** The session as a value. */
    function View(): World
      reads this, pacman, ghosts
    {
      World(walls, foods, BodiesOf(ghosts), if pacman == null then None else Some(BodyOf(pacman)),
            score, lives, gameOver, gameStarted, scoreSubmitted, gamePausedAfterDeath, chaser)
    }

    /** The ghosts are distinct Blocks, pacman is none of them, and the
        session invariant of Rules holds. */
    ghost predicate Valid()
      reads this, pacman, ghosts
    {
      Shaped(tileMap) &&
      (forall i, j :: 0 <= i < j < |ghosts| ==> ghosts[i] != ghosts[j]) &&
      (pacman != null ==> pacman !in ghosts) &&
      Sane(View())
    }

    /** The globals as the script declares them: empty Sets, no pacman,
        score 0, 3 lives, every flag false. */
    constructor ()
      ensures tileMap == TileMap && Valid()
      ensures View() == World([], [], [], None, 0, StartingLives, false, false, false, false, None)
    {
      tileMap := TileMap;
      walls, foods, ghosts, pacman := [], [], [], null;
      score, lives := 0, StartingLives;
      gameOver, gameStarted, scoreSubmitted, gamePausedAfterDeath := false, false, false, false;
      chaser := None;
      TileMapShaped();
    }

    /** The score, lives, flags and chaser are as they were. */
    twostate predicate TallyKept()
      reads this
    {
      score == old(score) && lives == old(lives) && gameOver == old(gameOver) &&
      gameStarted == old(gameStarted) && scoreSubmitted == old(scoreSubmitted) &&
      gamePausedAfterDeath == old(gamePausedAfterDeath) && chaser == old(chaser)
    }

    /** The loops of `loadMap` stand at (r, c). */
    ghost predicate LoadedBefore(r: int, c: int, fullLoad: bool, wallsOnly: bool)
      reads this, pacman, ghosts
    {
      WallsLoaded(tileMap, walls, r, c, fullLoad, wallsOnly) && FoodsLoaded(tileMap, foods, r, c, fullLoad, wallsOnly) &&
      ActorsLoaded(tileMap, ghosts, pacman, r, c, fullLoad, wallsOnly)
    }

    /** The ghost or pacman Block a ghost letter or 'P' at cell (r, c) creates. */
    method SpawnActor(r: int, c: int, tileMapChar: char, x: int, y: int, fullLoad: bool, wallsOnly: bool)
      requires 0 <= r < RowCount && 0 <= c < ColumnCount && fullLoad && !wallsOnly
      requires ActorsLoaded(tileMap, ghosts, pacman, r, c, fullLoad, wallsOnly) && tileMapChar == CharAt(tileMap, r, c)
      requires x == c * TileSize && y == r * TileSize
      modifies this
      ensures ActorsLoaded(tileMap, ghosts, pacman, r, c + 1, fullLoad, wallsOnly)
      ensures walls == old(walls) && foods == old(foods) && TallyKept()
      ensures forall g :: g in ghosts ==> g in old(ghosts) || fresh(g)
      ensures pacman != old(pacman) ==> pacman != null && fresh(pacman)
    {
      ghost var g0 := ghosts;
      var color := GhostOf(tileMapChar);
      if color.Some? {
        var spawned := new Actor(Ghost(color.value), x, y, TileSize, TileSize);
        ghosts := ghosts + [spawned];
        assert BodiesOf(ghosts) == BodiesOf(g0) + [BodyOf(spawned)];
      } else if tileMapChar == 'P' {
        pacman := new Actor(Player, x, y, TileSize, TileSize);
      }
    }

    /** The body of `loadMap`'s inner loop for row r, column c. */
    method LoadCell(r: int, c: int, fullLoad: bool, wallsOnly: bool)
      requires 0 <= r < RowCount && 0 <= c < ColumnCount
      requires LoadedBefore(r, c, fullLoad, wallsOnly)
      modifies this
      ensures LoadedBefore(r, c + 1, fullLoad, wallsOnly)
      ensures TallyKept()
      ensures forall g :: g in ghosts ==> g in old(ghosts) || fresh(g)
      ensures pacman != old(pacman) ==> pacman != null && fresh(pacman)
    {
      var row := tileMap[r];
      var tileMapChar := row[c];
      var x := c * TileSize;
      var y := r * TileSize;
      LoadWall(r, c, tileMapChar, x, y, fullLoad, wallsOnly);
      if fullLoad && !wallsOnly {
        LoadEntities(r, c, tileMapChar, x, y, fullLoad, wallsOnly);
      }
    }

    /** The wall a cell creates when either flag is set. */
    method LoadWall(r: int, c: int, tileMapChar: char, x: int, y: int, fullLoad: bool, wallsOnly: bool)
      requires WallsLoaded(tileMap, walls, r, c, fullLoad, wallsOnly)
      requires 0 <= r < RowCount && 0 <= c < ColumnCount && tileMapChar == CharAt(tileMap, r, c)
      requires x == c * TileSize && y == r * TileSize
      modifies this
      ensures WallsLoaded(tileMap, walls, r, c + 1, fullLoad, wallsOnly)
      ensures foods == old(foods) && ghosts == old(ghosts) && pacman == old(pacman) && TallyKept()
    {
      assert WallsBefore(tileMap, r, c + 1) == WallsBefore(tileMap, r, c) + (if tileMapChar == 'X' then [TileBox(r, c)] else []);
      if tileMapChar == 'X' && (fullLoad || wallsOnly) {
        walls := walls + [Box(x, y, TileSize, TileSize)];
      }
    }

    /** The ghost, pacman and pellet a cell creates on a full load that is
        not walls-only. */
    method LoadEntities(r: int, c: int, tileMapChar: char, x: int, y: int, fullLoad: bool, wallsOnly: bool)
      requires FoodsLoaded(tileMap, foods, r, c, fullLoad, wallsOnly)
      requires ActorsLoaded(tileMap, ghosts, pacman, r, c, fullLoad, wallsOnly)
      requires 0 <= r < RowCount && 0 <= c < ColumnCount && fullLoad && !wallsOnly
      requires tileMapChar == CharAt(tileMap, r, c) && x == c * TileSize && y == r * TileSize
      modifies this
      ensures FoodsLoaded(tileMap, foods, r, c + 1, fullLoad, wallsOnly)
      ensures ActorsLoaded(tileMap, ghosts, pacman, r, c + 1, fullLoad, wallsOnly)
      ensures walls == old(walls) && TallyKept()
      ensures forall g :: g in ghosts ==> g in old(ghosts) || fresh(g)
      ensures pacman != old(pacman) ==> pacman != null && fresh(pacman)
    {
      SpawnActor(r, c, tileMapChar, x, y, fullLoad, wallsOnly);
      LoadFood(r, c, tileMapChar, x, y, fullLoad, wallsOnly);
    }

    /** The pellet a ' ', 'P' or ghost cell creates. */
    method LoadFood(r: int, c: int, tileMapChar: char, x: int, y: int, fullLoad: bool, wallsOnly: bool)
      requires FoodsLoaded(tileMap, foods, r, c, fullLoad, wallsOnly)
      requires 0 <= r < RowCount && 0 <= c < ColumnCount && fullLoad && !wallsOnly
      requires tileMapChar == CharAt(tileMap, r, c) && x == c * TileSize && y == r * TileSize
      modifies this
      ensures FoodsLoaded(tileMap, foods, r, c + 1, fullLoad, wallsOnly)
      ensures walls == old(walls) && ghosts == old(ghosts) && pacman == old(pacman) && TallyKept()
    {
      assert FoodsBefore(tileMap, r, c + 1) == FoodsBefore(tileMap, r, c) + (if IsFoodChar(tileMapChar) then [FoodBox(r, c)] else []);
      if tileMapChar == ' ' || tileMapChar == 'P' ||
         tileMapChar == 'b' || tileMapChar == 'o' || tileMapChar == 'p' || tileMapChar == 'r' {
        foods := foods + [Box(x + TileSize / 2 - 2, y + TileSize / 2 - 2, 4, 4)];
      }
    }

    /** The inner loop of `loadMap`: the columns of row r. */
    method LoadRow(r: int, fullLoad: bool, wallsOnly: bool)
      requires 0 <= r < RowCount && LoadedBefore(r, 0, fullLoad, wallsOnly)
      modifies this
      ensures LoadedBefore(r, ColumnCount, fullLoad, wallsOnly)
      ensures TallyKept()
      ensures forall g :: g in ghosts ==> g in old(ghosts) || fresh(g)
      ensures pacman != old(pacman) ==> pacman != null && fresh(pacman)
    {
      var c := 0;
      while c < ColumnCount
        invariant 0 <= c <= ColumnCount
        invariant LoadedBefore(r, c, fullLoad, wallsOnly)
        invariant TallyKept()
        invariant forall g :: g in ghosts ==> g in old(ghosts) || fresh(g)
        invariant pacman != old(pacman) ==> pacman != null && fresh(pacman)
      {
        LoadCell(r, c, fullLoad, wallsOnly);
        c := c + 1;
      }
    }

    /** The outer loop of `loadMap`: the rows. */
    method LoadGrid(fullLoad: bool, wallsOnly: bool)
      requires LoadedBefore(0, 0, fullLoad, wallsOnly) && ghosts == [] && pacman == null
      modifies this
      ensures LoadedBefore(RowCount, 0, fullLoad, wallsOnly)
      ensures TallyKept()
      ensures pacman != null ==> fresh(pacman)
      ensures forall g :: g in ghosts ==> fresh(g)
    {
      var r := 0;
      while r < RowCount
        invariant 0 <= r <= RowCount
        invariant LoadedBefore(r, 0, fullLoad, wallsOnly)
        invariant TallyKept()
        invariant forall g :: g in ghosts ==> fresh(g)
        invariant pacman != null ==> fresh(pacman)
      {
        LoadRow(r, fullLoad, wallsOnly);
        NextRow(tileMap, walls, foods, ghosts, pacman, r, fullLoad, wallsOnly);
        r := r + 1;
      }
    }

    /** The opening of `loadMap`: empty the three Sets and drop pacman. */
    method ClearEntities()
      modifies this
      ensures walls == [] && foods == [] && ghosts == [] && pacman == null && TallyKept()
    {
      walls := [];
      foods := [];
      ghosts := [];
      pacman := null;
    }

    /** `loadMap(fullLoad, wallsOnly)`: clear every entity, then visit the
        grid row by row. */
    method LoadMap(fullLoad: bool, wallsOnly: bool)
      requires Valid()
      modifies this
      ensures Valid()
      ensures View() == Loaded(old(View()), tileMap, fullLoad, wallsOnly)
      ensures pacman != null ==> fresh(pacman)
      ensures forall i :: 0 <= i < |ghosts| ==> fresh(ghosts[i])
    {
      ghost var s0 := View();
      ClearEntities();
      assert LoadedBefore(0, 0, fullLoad, wallsOnly);
      LoadGrid(fullLoad, wallsOnly);
      forall i | 0 <= i < |ghosts|
        ensures fresh(ghosts[i])
      {
        assert ghosts[i] in ghosts;
      }
      ghost var t := Loaded(s0, tileMap, fullLoad, wallsOnly);
      assert walls == t.walls && foods == t.foods && BodiesOf(ghosts) == t.ghosts;
      assert View() == t;
      LoadedKeepsSane(s0, tileMap, fullLoad, wallsOnly);
    }

    // ----------------------------------------------------- resetPositions

    /** `resetPositions`, the i-th ghost drawing the i-th shuffle of `rng`. */
    method ResetPositions(rng: seq<seq<Dir>>)
      requires Valid()
      modifies pacman, ghosts
      ensures Valid()
      ensures View() == Repositioned(old(View()), rng)
    {
      ghost var s0 := View();
      if pacman != null {
        pacman.Reset();
        pacman.vx, pacman.vy := 0, 0;
      }
      ghost var pac := if pacman == null then None else Some(BodyOf(pacman));
      assert BodiesOf(ghosts) == s0.ghosts && pac == Repositioned(s0, rng).pacman;
      RehomeGhosts(rng);
      assert BodiesOf(ghosts) == Repositioned(s0, rng).ghosts;
      assert pac == if pacman == null then None else Some(BodyOf(pacman));
      RepositionedKeepsSane(s0, rng);
    }

    /** The ghost loop of `resetPositions`. */
    method RehomeGhosts(rng: seq<seq<Dir>>)
      requires forall i, j :: 0 <= i < j < |ghosts| ==> ghosts[i] != ghosts[j]
      modifies ghosts
      ensures BodiesOf(ghosts) == Rehomed(old(BodiesOf(ghosts)), walls, rng)
    {
      ghost var g0 := BodiesOf(ghosts);
      var i := 0;
      while i < |ghosts|
        invariant 0 <= i <= |ghosts|
        invariant forall j :: 0 <= j < |ghosts| ==>
          BodyOf(ghosts[j]) == if j < i then Turned(Respawn(g0[j]), walls, OrderAt(rng, j)) else g0[j]
      {
        Rehome(ghosts[i], walls, OrderAt(rng, i));
        i := i + 1;
      }
      assert forall j :: 0 <= j < |ghosts| ==> BodiesOf(ghosts)[j] == Rehomed(g0, walls, rng)[j];
    }

    // ---------------------------------------------------------- startGame

    /** `startGame(isRestart)` up to the ready timer, with the colour
        `assignChaser` draws supplied as c. */
    method StartGame(isRestart: bool, c: Color, rng: seq<seq<Dir>>)
      requires Valid()
      modifies this, pacman, ghosts
      ensures Valid() && pacman == old(pacman) && ghosts == old(ghosts)
      ensures View() == Started(old(View()), isRestart, c, rng)
    {
      ghost var s0 := View();
      ResetPositions(rng);
      Rearm(isRestart, c);
      HaltActors();
      StartedKeepsSane(s0, isRestart, c, rng);
    }

    /** Step 2 of `startGame`, with `assignChaser`. */
    method Rearm(isRestart: bool, c: Color)
      modifies this
      ensures View() == Rearmed(old(View()), isRestart, c)
      ensures pacman == old(pacman) && ghosts == old(ghosts)
    {
      if !isRestart {
        score, lives := 0, StartingLives;
      }
      gameOver, scoreSubmitted, gamePausedAfterDeath, chaser := false, false, false, Some(c);
    }

    /** Step 6 of `startGame`. */
    method HaltActors()
      requires forall i, j :: 0 <= i < j < |ghosts| ==> ghosts[i] != ghosts[j]
      requires pacman != null ==> pacman !in ghosts
      modifies pacman, ghosts
      ensures View() == Still(old(View()))
    {
      if pacman != null {
        pacman.vx, pacman.vy := 0, 0;
      }
      ghost var pac := if pacman == null then None else Some(BodyOf(pacman));
      HaltGhosts();
      assert pac == if pacman == null then None else Some(BodyOf(pacman));
    }

    /** Step 6 of `startGame` for the ghosts: zero velocity. */
    method HaltGhosts()
      requires forall i, j :: 0 <= i < j < |ghosts| ==> ghosts[i] != ghosts[j]
      modifies ghosts
      ensures BodiesOf(ghosts) == Halted(old(BodiesOf(ghosts)))
    {
      ghost var g0 := BodiesOf(ghosts);
      var i := 0;
      while i < |ghosts|
        invariant 0 <= i <= |ghosts|
        invariant forall j :: 0 <= j < |ghosts| ==> BodyOf(ghosts[j]) == if j < i then Stopped(g0[j]) else g0[j]
      {
        ghosts[i].vx, ghosts[i].vy := 0, 0;
        i := i + 1;
      }
      assert forall j :: 0 <= j < |ghosts| ==> BodiesOf(ghosts)[j] == Halted(g0)[j];
    }

    // ---------------------------------------------------------------- move

    /** `move`, the i-th ghost drawing shuffles 2i and 2i + 1 of `rng`. */
    method Move(rng: seq<seq<Dir>>)
      requires Valid()
      modifies this, pacman, ghosts
      ensures Valid() && pacman == old(pacman) && ghosts == old(ghosts)
      ensures View() == Step(old(View()), rng)
    {
      if !gameStarted || pacman == null || gamePausedAfterDeath {
        return;
      }
      ghost var s0 := View();
      ghost var pac := s0.pacman.value;
      ghost var moved := pac.(pose := PacmanStep(pac.pose, pac.w, pac.h, walls));
      StepPacman(pacman, walls);
      assert BodiesOf(ghosts) == s0.ghosts;
      assert BodyOf(pacman) == moved;
      var caught := MoveGhosts(ghosts, pacman, chaser, walls, rng);
      ghost var k := FirstOverlap(BoxOf(moved), GhostBoxes(s0.ghosts));
      ghost var s1 := s0.(pacman := Some(moved),
                          ghosts := TickGhosts(s0.ghosts, k, chaser, Some((moved.pose.x, moved.pose.y)), walls, rng));
      assert View() == s1;
      if caught {
        LoseLife();
      } else {
        EatFood();
      }
      StepKeepsSane(s0, rng);
    }

    /** Ghost contact in `move`: the game ends on the last life, otherwise a
        life is lost and the death pause begins. */
    method LoseLife()
      modifies this
      ensures View() == Caught(old(View()))
      ensures pacman == old(pacman) && ghosts == old(ghosts)
    {
      if lives <= 1 {
        lives, gameOver, gameStarted := 0, true, false;
      } else {
        lives, gamePausedAfterDeath := lives - 1, true;
      }
    }

    /** Steps 4 and 5 of `move`: eat the first pellet pacman overlaps, and
        stop the game when none is left. */
    method EatFood()
      requires pacman != null
      modifies this
      ensures pacman != null && View() == Cleared(Feed(old(View()), pacman.Bounds()))
      ensures pacman == old(pacman) && ghosts == old(ghosts)
    {
      var k := FirstCollision(pacman.Bounds(), foods);
      if k < |foods| {
        score := score + Reward;
        foods := foods[..k] + foods[k + 1..];
      }
      if |foods| == 0 {
        gameStarted := false;
      }
    }

    // -------------------------------------------------------------- update

    /** One call of `update` (the call it schedules is not made). */
    method Update(rng: seq<seq<Dir>>)
      requires Valid()
      modifies this, pacman, ghosts
      ensures Valid() && pacman == old(pacman) && ghosts == old(ghosts)
      ensures View() == Updated(old(View()), rng)
    {
      if gameOver {
        if !scoreSubmitted {
          scoreSubmitted := true;
        }
        return;
      }
      if !gameStarted || gamePausedAfterDeath {
        return;
      }
      Move(rng);
    }

    // --------------------------------------------------------- handleInput

    /** `handleInput` for the key code `code`. */
    method HandleInput(code: string)
      requires Valid()
      modifies pacman
      ensures Valid()
      ensures View() == Steer(old(View()), code)
    {
      if !gameStarted || gameOver || pacman == null || gamePausedAfterDeath {
        return;
      }
      ghost var s0 := View();
      var newDirection := pacman.dir;
      if code == "ArrowUp" || code == "KeyW" {
        newDirection := U;
      } else if code == "ArrowDown" || code == "KeyS" {
        newDirection := D;
      } else if code == "ArrowLeft" || code == "KeyA" {
        newDirection := L;
      } else if code == "ArrowRight" || code == "KeyD" {
        newDirection := R;
      }
      pacman.AttemptDirectionChange(newDirection, walls);
      assert BodiesOf(ghosts) == s0.ghosts;
      SteerKeepsSane(s0, code);
    }

    // ------------------------------------------------ resetGame and buttons

    /** `resetGame(keepMapLoaded)`, the chaser of the new game (if any)
        being c. */
    method ResetGame(keepMapLoaded: bool, c: Color, rng: seq<seq<Dir>>)
      requires Valid()
      modifies this
      ensures Valid()
      ensures View() == Restarted(old(View()), tileMap, keepMapLoaded, c, rng)
    {
      LoadMap(keepMapLoaded, false);
      Rezero();
      if keepMapLoaded {
        LoadMap(true, false);
        StartGame(false, c, rng);
      }
    }

    /** Step 3 of `resetGame`. */
    method Rezero()
      requires Valid()
      modifies this
      ensures Valid() && pacman == old(pacman) && ghosts == old(ghosts)
      ensures View() == old(View()).(score := 0, lives := StartingLives, gameOver := false,
                                     gameStarted := false, scoreSubmitted := false, paused := false)
    {
      score, lives, gameOver, gameStarted, scoreSubmitted, gamePausedAfterDeath :=
        0, StartingLives, false, false, false, false;
    }

    /** The start/reset button. The restart button of the game-over dialog
        is `ResetGame(true, ...)` and its exit button `ResetGame(false, ...)`. */
    method PressStart(c: Color, rng: seq<seq<Dir>>)
      requires Valid()
      modifies this
      ensures Valid()
      ensures View() == Pressed(old(View()), tileMap, c, rng)
    {
      if !gameStarted {
        LoadMap(true, false);
        StartGame(false, c, rng);
      } else {
        ResetGame(false, c, rng);
      }
    }

    // -------------------------------------------------------------- timers

    /** The ready timer of `startGame`, the i-th ghost drawing the i-th
        shuffle of `orders` before `update` runs with `rng`. */
    method ReadyDelayElapsed(orders: seq<seq<Dir>>, rng: seq<seq<Dir>>)
      requires Valid()
      modifies this, pacman, ghosts
      ensures Valid() && pacman == old(pacman) && ghosts == old(ghosts)
      ensures View() == Ready(old(View()), orders, rng)
    {
      ghost var s0 := View();
      gameStarted := true;
      RedirectGhosts(orders);
      assert View() == s0.(gameStarted := true, ghosts := Redirected(s0.ghosts, walls, orders));
      Update(rng);
    }

    /** The ghost loop of the ready timer. */
    method RedirectGhosts(orders: seq<seq<Dir>>)
      requires forall i, j :: 0 <= i < j < |ghosts| ==> ghosts[i] != ghosts[j]
      modifies ghosts
      ensures BodiesOf(ghosts) == Redirected(old(BodiesOf(ghosts)), walls, orders)
    {
      ghost var g0 := BodiesOf(ghosts);
      var i := 0;
      while i < |ghosts|
        invariant 0 <= i <= |ghosts|
        invariant forall j :: 0 <= j < |ghosts| ==>
          BodyOf(ghosts[j]) == if j < i then Turned(g0[j], walls, OrderAt(orders, j)) else g0[j]
      {
        ghosts[i].ChooseNewDirection(walls, OrderAt(orders, i));
        i := i + 1;
      }
      assert forall j :: 0 <= j < |ghosts| ==> BodiesOf(ghosts)[j] == Redirected(g0, walls, orders)[j];
    }

    /** The death-pause timer of `move` (the `update` it schedules is not
        made). */
    method DeathPauseElapsed(rng: seq<seq<Dir>>)
      requires Valid()
      modifies this, pacman, ghosts
      ensures Valid() && pacman == old(pacman) && ghosts == old(ghosts)
      ensures View() == Revived(old(View()), rng)
    {
      ResetPositions(rng);
      gamePausedAfterDeath := false;
    }

    /** The level-clear timer of `move`. */
    method LevelClearDelayElapsed(c: Color, rng1: seq<seq<Dir>>, rng2: seq<seq<Dir>>)
      requires Valid()
      modifies this
      ensures Valid()
      ensures View() == NextLevel(old(View()), tileMap, c, rng1, rng2)
    {
      LoadMap(true, false);
      ResetPositions(rng1);
      StartGame(true, c, rng2);
    }
  }
}

/** The fixed maze of pacman.js (`tileMap`) and what `loadMap` builds from
    it, stated as functions of the cells visited so far in the row-major
    order of its nested loops. */
module WorldMap {
  import opened Wrappers
  import opened Geometry

  /** X = wall, O = no food, P = pacman, ' ' = food; b, o, p, r = ghosts.
      Row 13 holds one character more than the 19 columns that are read. */
  const TileMap: seq<string> := [
    "XXXXXXXXXXXXXXXXXXX",
    "X                 X",
    "X XX XXX X XXX XX X",
    "X                 X",
    "X XX X XXXXX X XX X",
    "X X    X           ",
    "XXXX XXXX XXXX XXXX",
    "OOOX X    X        ",
    "XXXX X XXrXX X XXXX",
    "    bpo            ",
    "XXXX X XXXXX X XXXX",
    "OOOX X    X        ",
    "XXXX X XXXXX X XXXX",
    "X           X      X",
    "X XX XXX X XXX XX X",
    "X X  P          X X",
    "XX X X XXXXX X X XX",
    "X      X      XX  X",
    "X XXXXXX   XXXXXX X",
    "X                 X",
    "XXXXXXXXXXXXXXXXXXX"
  ]

  lemma TileMapShaped()
    ensures Shaped(TileMap)
  {
  }

  /** The four ghost sprites, in the order of `assignChaser`'s list. */
  datatype Color = Blue | Orange | Pink | Red

  /** Where the nested loops of `loadMap` stand: before column c of row
      r, or past the last row. */
  predicate Stop(r: int, c: int) {
    (0 <= r < RowCount && 0 <= c <= ColumnCount) || (r == RowCount && c == 0)
  }

  /** Cell (i, j) has been visited when the loops stand at (r, c). */
  predicate Earlier(i: int, j: int, r: int, c: int) {
    0 <= i < RowCount && 0 <= j < ColumnCount && (i < r || (i == r && j < c))
  }

  /** A grid `loadMap` can read: 21 rows of at least 19 characters. */
  predicate Shaped(m: seq<string>) {
    |m| == RowCount && forall r :: 0 <= r < RowCount ==> |m[r]| >= ColumnCount
  }

  /** `tileMap[r][c]`. */
  function CharAt(m: seq<string>, r: int, c: int): char
    requires Shaped(m) && 0 <= r < RowCount && 0 <= c < ColumnCount
  {
    m[r][c]
  }

  /** The 32x32 box of cell (r, c): a wall there, or an actor's spawn box. */
  function TileBox(r: int, c: int): Box {
    Box(c * TileSize, r * TileSize, TileSize, TileSize)
  }

  /** The 4x4 pellet at `(x + tileSize / 2 - 2, y + tileSize / 2 - 2)`. */
  function FoodBox(r: int, c: int): Box {
    Box(c * TileSize + TileSize / 2 - 2, r * TileSize + TileSize / 2 - 2, 4, 4)
  }

  /** The cells that receive a pellet: ' ', 'P' and the four ghost letters. */
  predicate IsFoodChar(ch: char) {
    ch == ' ' || ch == 'P' || ch == 'b' || ch == 'o' || ch == 'p' || ch == 'r'
  }

  /** The ghost a letter spawns, if any. */
  function GhostOf(ch: char): (g: Option<Color>)
    ensures g.Some? <==> ch == 'b' || ch == 'o' || ch == 'p' || ch == 'r'
    ensures (g == Some(Blue) <==> ch == 'b') && (g == Some(Orange) <==> ch == 'o') &&
            (g == Some(Pink) <==> ch == 'p') && (g == Some(Red) <==> ch == 'r')
  {
    if ch == 'b' then Some(Blue)
    else if ch == 'o' then Some(Orange)
    else if ch == 'p' then Some(Pink)
    else if ch == 'r' then Some(Red)
    else None
  }

  /** The walls created before the loops reach (r, c), in insertion order. */
  function WallsBefore(m: seq<string>, r: int, c: int): seq<Box>
    requires Shaped(m) && Stop(r, c)
    decreases r, c
  {
    if c > 0 then WallsBefore(m, r, c - 1) + (if CharAt(m, r, c - 1) == 'X' then [TileBox(r, c - 1)] else [])
    else if r > 0 then WallsBefore(m, r - 1, ColumnCount)
    else []
  }

  /** The pellets created before the loops reach (r, c), in insertion order. */
  function FoodsBefore(m: seq<string>, r: int, c: int): seq<Box>
    requires Shaped(m) && Stop(r, c)
    decreases r, c
  {
    if c > 0 then FoodsBefore(m, r, c - 1) + (if IsFoodChar(CharAt(m, r, c - 1)) then [FoodBox(r, c - 1)] else [])
    else if r > 0 then FoodsBefore(m, r - 1, ColumnCount)
    else []
  }

  /** The last 'P' cell visited before (r, c): `pacman` is reassigned at
      every 'P'. */
  function PacmanCellBefore(m: seq<string>, r: int, c: int): (p: Option<(int, int)>)
    requires Shaped(m) && Stop(r, c)
    ensures p.Some? ==> Earlier(p.value.0, p.value.1, r, c)
    decreases r, c
  {
    if c > 0 then (if CharAt(m, r, c - 1) == 'P' then Some((r, c - 1)) else PacmanCellBefore(m, r, c - 1))
    else if r > 0 then PacmanCellBefore(m, r - 1, ColumnCount)
    else None
  }

  /** A wall is created exactly at each 'X' cell. */
  lemma {:induction false} WallsBeforeMembers(m: seq<string>, r: int, c: int)
    requires Shaped(m) && Stop(r, c)
    ensures forall b :: b in WallsBefore(m, r, c) <==>
      exists i, j :: Earlier(i, j, r, c) && CharAt(m, i, j) == 'X' && b == TileBox(i, j)
    decreases r, c
  {
    if c > 0 {
      WallsBeforeMembers(m, r, c - 1);
    } else if r > 0 {
      WallsBeforeMembers(m, r - 1, ColumnCount);
    }
  }

  /** A pellet is created exactly at each ' ', 'P', 'b', 'o', 'p', 'r' cell. */
  lemma {:induction false} FoodsBeforeMembers(m: seq<string>, r: int, c: int)
    requires Shaped(m) && Stop(r, c)
    ensures forall b :: b in FoodsBefore(m, r, c) <==>
      exists i, j :: Earlier(i, j, r, c) && IsFoodChar(CharAt(m, i, j)) && b == FoodBox(i, j)
    decreases r, c
  {
    if c > 0 {
      FoodsBeforeMembers(m, r, c - 1);
    } else if r > 0 {
      FoodsBeforeMembers(m, r - 1, ColumnCount);
    }
  }

  /** `pacman` ends up at the last 'P' cell, or null when there is none. */
  lemma {:induction false} PacmanCellBeforeIsLastP(m: seq<string>, r: int, c: int)
    requires Shaped(m) && Stop(r, c)
    ensures var p := PacmanCellBefore(m, r, c);
      (p.Some? ==> CharAt(m, p.value.0, p.value.1) == 'P' &&
                   forall i, j :: Earlier(i, j, r, c) && !Earlier(i, j, p.value.0, p.value.1 + 1) ==> CharAt(m, i, j) != 'P') &&
      (p.None? ==> forall i, j :: Earlier(i, j, r, c) ==> CharAt(m, i, j) != 'P')
    decreases r, c
  {
    if c > 0 {
      PacmanCellBeforeIsLastP(m, r, c - 1);
    } else if r > 0 {
      PacmanCellBeforeIsLastP(m, r - 1, ColumnCount);
    }
  }

  /** Every wall `loadMap` creates is a whole tile on the grid. */
  lemma WallsAreTiles(m: seq<string>)
    requires Shaped(m)
    ensures forall i :: 0 <= i < |WallsBefore(m, RowCount, 0)| ==> GridTile(WallsBefore(m, RowCount, 0)[i])
  {
    var walls := WallsBefore(m, RowCount, 0);
    WallsBeforeMembers(m, RowCount, 0);
    forall i | 0 <= i < |walls|
      ensures GridTile(walls[i])
    {
      assert walls[i] in walls;
    }
  }

  /** The tile of a cell that is not 'X' lies on the board and overlaps no
      wall of the loaded map: an actor spawned there is not blocked. */
  lemma OpenCellIsClear(m: seq<string>, r: int, c: int)
    requires Shaped(m) && 0 <= r < RowCount && 0 <= c < ColumnCount && CharAt(m, r, c) != 'X'
    ensures !Blocked(TileBox(r, c), WallsBefore(m, RowCount, 0))
  {
    var walls := WallsBefore(m, RowCount, 0);
    WallsBeforeMembers(m, RowCount, 0);
    forall k | 0 <= k < |walls|
      ensures !Collision(TileBox(r, c), walls[k])
    {
      assert walls[k] in walls;
      var i, j :| Earlier(i, j, RowCount, 0) && CharAt(m, i, j) == 'X' && walls[k] == TileBox(i, j);
      assert i != r || j != c;
      GridTilesCollideOnlyIfEqual(TileBox(r, c), walls[k]);
    }
  }
}

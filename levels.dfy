/** The level grid parser: a level is a list of text rows, one character per 32 by 32
    tile; 'X' is a platform, 'D' a door, 'E' an enemy, 'P' the player's position and
    anything else is empty space. */
module Levels {
  import opened Geometry
  import opened GamePlatform
  import Enemies
  import Players

  const TILE_SIZE := 32
  const GREEN := Color(0, 255, 0)

  /** Room 1. */
  const LEVEL_1: seq<string> := [
    "                            ",
    "                            ",
    "                            ",
    "                            ",
    "                            ",
    "                            ",
    "                            ",
    "           P                ",
    "        XXXXXX              ",
    "                     D      ",
    "      XXXXXXXXXXXXX         ",
    "XXXXXXXXXXXXXXXXXXXXXXXXXXXX"
  ]

  /** Room 2. */
  const LEVEL_2: seq<string> := [
    "                            ",
    "                            ",
    "                            ",
    "                            ",
    "                            ",
    "                            ",
    "                            ",
    "                            ",
    "  X                 E       ",
    " XXXXXX    XXXXXXXXXXXXX    ",
    "XXXXXXXX   XXXXX            ",
    "XXXXXXXXXXXXXXXXXXXXXXXXXXXX"
  ]

  /** A door is a trigger rectangle with no behaviour of its own. */
  datatype Door = Door(rect: Rect)

  function DoorRect(d: Door): Rect { d.rect }

  // What each marker at column col, row row becomes.

  /** 'X': a 32 by 32 platform on the tile. */
  function PlatformTile(col: int, row: int): Platform {
    NewPlatform(col * TILE_SIZE, row * TILE_SIZE, TILE_SIZE, TILE_SIZE, GREEN)
  }

  /** 'D': a door one tile wide and two tiles tall, its top on the marker's tile. */
  function DoorTile(col: int, row: int): Door {
    Door(Rect(col * TILE_SIZE, row * TILE_SIZE, TILE_SIZE, TILE_SIZE * 2))
  }

  /** 'E': an enemy on the tile, with patrol bounds two tiles either side of the tile's left
      edge: it sweeps two tiles to the left of its tile and one tile to the right. */
  function EnemyTile(col: int, row: int): Enemies.EnemyState {
    var x := col * TILE_SIZE;
    Enemies.Spawned(x, row * TILE_SIZE, Enemies.ParsedBounds(x).0, Enemies.ParsedBounds(x).1)
  }

  /** 'P': the pixel position the player is moved to. */
  function SpawnTile(col: int, row: int): (int, int) {
    (col * TILE_SIZE, row * TILE_SIZE)
  }

  /** What one row (at index r) yields for `marker`: make(col, r) for every column col
      holding the marker, left to right. */
  function RowScan<T>(marker: char, make: (int, int) -> T, row: string, r: int): seq<T>
    decreases |row|
  {
    if row == [] then []
    else RowScan(marker, make, row[..|row| - 1], r)
         + (if row[|row| - 1] == marker then [make(|row| - 1, r)] else [])
  }

  /** What a whole level yields for `marker`, in row-major order. */
  function GridScan<T>(marker: char, make: (int, int) -> T, level: seq<string>): seq<T>
    decreases |level|
  {
    if level == [] then []
    else GridScan(marker, make, level[..|level| - 1]) + RowScan(marker, make, level[|level| - 1], |level| - 1)
  }

  /** Scanning one more cell of a row appends what that cell yields. */
  lemma RowScanExtend<T>(marker: char, make: (int, int) -> T, row: string, c: int, r: int)
    requires 0 <= c < |row|
    ensures RowScan(marker, make, row[..c + 1], r)
            == RowScan(marker, make, row[..c], r) + (if row[c] == marker then [make(c, r)] else [])
  {
    assert row[..c + 1][..c] == row[..c];
  }

  /** Scanning one more row of a level appends what that row yields. */
  lemma GridScanExtend<T>(marker: char, make: (int, int) -> T, level: seq<string>, r: int)
    requires 0 <= r < |level|
    ensures GridScan(marker, make, level[..r + 1])
            == GridScan(marker, make, level[..r]) + RowScan(marker, make, level[r], r)
  {
    assert level[..r + 1][..r] == level[..r];
  }

  /** What setting up a level adds, in row-major order: a platform per 'X', a door per 'D',
      an enemy per 'E', and the positions the player is moved to, one per 'P'. */
  function Platforms(level: seq<string>): seq<Platform> { GridScan('X', PlatformTile, level) }
  function Doors(level: seq<string>): seq<Door> { GridScan('D', DoorTile, level) }
  function EnemySpawns(level: seq<string>): seq<Enemies.EnemyState> { GridScan('E', EnemyTile, level) }
  function PlayerSpawns(level: seq<string>): seq<(int, int)> { GridScan('P', SpawnTile, level) }

  /** The player after a level is set up: moved to the last spawn position met, if any,
      otherwise untouched. Only the position changes. */
  function Placed(s: Players.PlayerState, spawns: seq<(int, int)>): (t: Players.PlayerState)
    ensures spawns == [] ==> t == s
    ensures spawns != [] ==> t.rect.x == spawns[|spawns| - 1].0 && t.rect.y == spawns[|spawns| - 1].1
    ensures t.rect.w == s.rect.w && t.rect.h == s.rect.h
    ensures t.changeX == s.changeX && t.changeY == s.changeY && t.onGround == s.onGround
  {
    if spawns == [] then s
    else s.(rect := s.rect.(x := spawns[|spawns| - 1].0, y := spawns[|spawns| - 1].1))
  }

  /** Placing the player from two batches of spawns in turn is placing it from both at once. */
  lemma PlacedAppend(s: Players.PlayerState, a: seq<(int, int)>, b: seq<(int, int)>)
    ensures Placed(Placed(s, a), b) == Placed(s, a + b)
  {
    if b != [] {
      assert (a + b)[|a + b| - 1] == b[|b| - 1];
    }
  }

  /** The cells of a row, and of a level, that hold `marker`, as (row, column) pairs. */
  ghost function RowCells(row: string, r: int, marker: char): set<(int, int)> {
    set c | 0 <= c < |row| && row[c] == marker :: (r, c)
  }

  ghost function Cells(level: seq<string>, marker: char): set<(int, int)> {
    set r, c | 0 <= r < |level| && 0 <= c < |level[r]| && level[r][c] == marker :: (r, c)
  }

  /** Cell (r, c) holds the marker and no cell after it in row-major order does. */
  ghost predicate IsLastMarker(level: seq<string>, marker: char, r: int, c: int) {
    && 0 <= r < |level| && 0 <= c < |level[r]| && level[r][c] == marker
    && forall r', c' :: 0 <= r' < |level| && 0 <= c' < |level[r']| && (r' > r || (r' == r && c' > c))
                        ==> level[r'][c'] != marker
  }

  lemma {:induction false} RowScanMembership<T>(marker: char, make: (int, int) -> T, row: string, r: int, t: T)
    ensures t in RowScan(marker, make, row, r)
            <==> exists c :: 0 <= c < |row| && row[c] == marker && t == make(c, r)
    decreases |row|
  {
    if row != [] {
      var init := row[..|row| - 1];
      RowScanMembership(marker, make, init, r, t);
      if t in RowScan(marker, make, row, r) {
        if t in RowScan(marker, make, init, r) {
          var c :| 0 <= c < |init| && init[c] == marker && t == make(c, r);
          assert row[c] == marker;
        } else {
          assert row[|row| - 1] == marker && t == make(|row| - 1, r);
        }
      }
      if exists c :: 0 <= c < |row| && row[c] == marker && t == make(c, r) {
        var c :| 0 <= c < |row| && row[c] == marker && t == make(c, r);
        if c < |row| - 1 {
          assert init[c] == marker;
        }
      }
    }
  }

  /** Something is produced for `marker` exactly when it is make(c, r) for a cell (r, c)
      holding the marker. */
  lemma {:induction false} GridScanMembership<T>(marker: char, make: (int, int) -> T, level: seq<string>, t: T)
    ensures t in GridScan(marker, make, level)
            <==> exists r, c :: 0 <= r < |level| && 0 <= c < |level[r]| && level[r][c] == marker && t == make(c, r)
    decreases |level|
  {
    if level != [] {
      var n := |level| - 1;
      var init := level[..n];
      GridScanMembership(marker, make, init, t);
      RowScanMembership(marker, make, level[n], n, t);
      if t in GridScan(marker, make, level) {
        if t in GridScan(marker, make, init) {
          var r, c :| 0 <= r < |init| && 0 <= c < |init[r]| && init[r][c] == marker && t == make(c, r);
          assert level[r] == init[r];
        } else {
          var c :| 0 <= c < |level[n]| && level[n][c] == marker && t == make(c, n);
        }
      }
      if exists r, c :: 0 <= r < |level| && 0 <= c < |level[r]| && level[r][c] == marker && t == make(c, r) {
        var r, c :| 0 <= r < |level| && 0 <= c < |level[r]| && level[r][c] == marker && t == make(c, r);
        if r < n {
          assert init[r] == level[r];
        }
      }
    }
  }

  lemma {:induction false} RowScanCount<T>(marker: char, make: (int, int) -> T, row: string, r: int)
    ensures |RowScan(marker, make, row, r)| == |RowCells(row, r, marker)|
    decreases |row|
  {
    if row == [] {
      assert RowCells(row, r, marker) == {};
    } else {
      var m := |row| - 1;
      var init := row[..m];
      RowScanCount(marker, make, init, r);
      var last: set<(int, int)> := if row[m] == marker then {(r, m)} else {};
      assert RowCells(row, r, marker) == RowCells(init, r, marker) + last by {
        forall x | x in RowCells(row, r, marker) ensures x in RowCells(init, r, marker) + last {
          var c :| 0 <= c < |row| && row[c] == marker && x == (r, c);
          if c < m { assert init[c] == marker; }
        }
      }
      assert (r, m) !in RowCells(init, r, marker);
    }
  }

  /** A level yields exactly one thing per cell holding `marker`. */
  lemma {:induction false} GridScanCount<T>(marker: char, make: (int, int) -> T, level: seq<string>)
    ensures |GridScan(marker, make, level)| == |Cells(level, marker)|
    decreases |level|
  {
    if level == [] {
      assert Cells(level, marker) == {};
    } else {
      var n := |level| - 1;
      var init := level[..n];
      GridScanCount(marker, make, init);
      RowScanCount(marker, make, level[n], n);
      assert Cells(level, marker) == Cells(init, marker) + RowCells(level[n], n, marker) by {
        forall x | x in Cells(level, marker) ensures x in Cells(init, marker) + RowCells(level[n], n, marker) {
          var r, c :| 0 <= r < |level| && 0 <= c < |level[r]| && level[r][c] == marker && x == (r, c);
          if r < n { assert init[r] == level[r]; }
        }
        forall x | x in Cells(init, marker) ensures x in Cells(level, marker) {
          var r, c :| 0 <= r < |init| && 0 <= c < |init[r]| && init[r][c] == marker && x == (r, c);
          assert level[r] == init[r];
        }
      }
      assert Cells(init, marker) * RowCells(level[n], n, marker) == {};
    }
  }

  lemma {:induction false} RowScanLast<T>(marker: char, make: (int, int) -> T, row: string, r: int)
    requires RowScan(marker, make, row, r) != []
    ensures var out := RowScan(marker, make, row, r);
            exists c :: && 0 <= c < |row| && row[c] == marker && out[|out| - 1] == make(c, r)
                        && forall c' :: c < c' < |row| ==> row[c'] != marker
    decreases |row|
  {
    var m := |row| - 1;
    var init := row[..m];
    if row[m] != marker {
      RowScanLast(marker, make, init, r);
      var c :| 0 <= c < |init| && init[c] == marker
               && RowScan(marker, make, init, r)[|RowScan(marker, make, init, r)| - 1] == make(c, r)
               && forall c' :: c < c' < |init| ==> init[c'] != marker;
      assert row[c] == marker;
      forall c' | c < c' < |row| ensures row[c'] != marker {
        if c' < m { assert row[c'] == init[c']; }
      }
    }
  }

  /** The last thing produced for `marker` comes from the last cell, in row-major order,
      that holds the marker. */
  lemma {:induction false} GridScanLast<T>(marker: char, make: (int, int) -> T, level: seq<string>)
    requires GridScan(marker, make, level) != []
    ensures var out := GridScan(marker, make, level);
            exists r, c :: IsLastMarker(level, marker, r, c) && out[|out| - 1] == make(c, r)
    decreases |level|
  {
    var n := |level| - 1;
    var init := level[..n];
    var out := GridScan(marker, make, level);
    var rowOut := RowScan(marker, make, level[n], n);
    if rowOut != [] {
      RowScanLast(marker, make, level[n], n);
      var c :| 0 <= c < |level[n]| && level[n][c] == marker && rowOut[|rowOut| - 1] == make(c, n)
               && forall c' :: c < c' < |level[n]| ==> level[n][c'] != marker;
      assert IsLastMarker(level, marker, n, c);
    } else {
      GridScanLast(marker, make, init);
      var initOut := GridScan(marker, make, init);
      var r, c :| IsLastMarker(init, marker, r, c) && initOut[|initOut| - 1] == make(c, r);
      assert out[|out| - 1] == initOut[|initOut| - 1];
      forall c' | 0 <= c' < |level[n]| ensures level[n][c'] != marker {
        RowScanMembership(marker, make, level[n], n, make(c', n));
      }
      forall r', c' | 0 <= r' < |level| && 0 <= c' < |level[r']| && (r' > r || (r' == r && c' > c))
        ensures level[r'][c'] != marker
      {
        if r' < n { assert level[r'] == init[r']; }
      }
      assert level[r] == init[r];
      assert IsLastMarker(level, marker, r, c);
    }
  }

  /** No cell of the level holds `marker`. */
  ghost predicate NoMarker(level: seq<string>, marker: char) {
    forall r, c :: 0 <= r < |level| && 0 <= c < |level[r]| ==> level[r][c] != marker
  }

  /** Every 'X' at (col, row) yields one 32 by 32 platform at (32 col, 32 row), and nothing
      else yields a platform: there are as many platforms as 'X' cells. */
  lemma PlatformsOfLevel(level: seq<string>)
    ensures |Platforms(level)| == |Cells(level, 'X')|
    ensures forall p :: p in Platforms(level) <==>
              exists r, c :: 0 <= r < |level| && 0 <= c < |level[r]| && level[r][c] == 'X'
                             && p == Platform(Rect(c * 32, r * 32, 32, 32), GREEN)
  {
    GridScanCount('X', PlatformTile, level);
    forall p ensures p in Platforms(level) <==>
              exists r, c :: 0 <= r < |level| && 0 <= c < |level[r]| && level[r][c] == 'X'
                             && p == Platform(Rect(c * 32, r * 32, 32, 32), GREEN)
    {
      GridScanMembership('X', PlatformTile, level, p);
    }
  }

  /** A cell holding 'X' has its platform in the level's platforms. */
  lemma PlatformOfCell(level: seq<string>, r: int, c: int)
    requires 0 <= r < |level| && 0 <= c < |level[r]| && level[r][c] == 'X'
    ensures Platform(Rect(c * 32, r * 32, 32, 32), GREEN) in Platforms(level)
  {
    PlatformsOfLevel(level);
  }

  /** Room 2 has a platform at column 3, row 9. */
  lemma Level2PlatformAt3And9()
    ensures Platform(Rect(96, 288, 32, 32), GREEN) in Platforms(LEVEL_2)
  {
    assert LEVEL_2[9][3] == 'X';
    PlatformOfCell(LEVEL_2, 9, 3);
  }

  /** Every 'D' at (col, row) yields one door at (32 col, 32 row), 32 wide and 64 tall, and
      nothing else yields a door. */
  lemma DoorsOfLevel(level: seq<string>)
    ensures |Doors(level)| == |Cells(level, 'D')|
    ensures forall d :: d in Doors(level) <==>
              exists r, c :: 0 <= r < |level| && 0 <= c < |level[r]| && level[r][c] == 'D'
                             && d == Door(Rect(c * 32, r * 32, 32, 64))
  {
    GridScanCount('D', DoorTile, level);
    forall d ensures d in Doors(level) <==>
              exists r, c :: 0 <= r < |level| && 0 <= c < |level[r]| && level[r][c] == 'D'
                             && d == Door(Rect(c * 32, r * 32, 32, 64))
    {
      GridScanMembership('D', DoorTile, level, d);
    }
  }

  /** Every 'E' at (col, row) yields one enemy at (32 col, 32 row), 32 by 32, moving right at
      speed 2 and patrolling between 64 to its left and 64 to its right; nothing else
      yields an enemy. */
  lemma EnemiesOfLevel(level: seq<string>)
    ensures |EnemySpawns(level)| == |Cells(level, 'E')|
    ensures forall e :: e in EnemySpawns(level) <==>
              exists r, c :: 0 <= r < |level| && 0 <= c < |level[r]| && level[r][c] == 'E'
                             && e == Enemies.EnemyState(Rect(c * 32, r * 32, 32, 32), 2, c * 32 - 64, c * 32 + 64)
  {
    GridScanCount('E', EnemyTile, level);
    forall e ensures e in EnemySpawns(level) <==>
              exists r, c :: 0 <= r < |level| && 0 <= c < |level[r]| && level[r][c] == 'E'
                             && e == Enemies.EnemyState(Rect(c * 32, r * 32, 32, 32), 2, c * 32 - 64, c * 32 + 64)
    {
      GridScanMembership('E', EnemyTile, level, e);
    }
  }

  /** Every enemy a level yields patrols for ever inside the bounds the parser gave it:
      its left edge within 64 pixels left and 32 right of where it was spawned, its whole
      rectangle between its bounds, on its row, at speed 2. */
  lemma ParsedEnemiesStayWithinBounds(level: seq<string>, e: Enemies.EnemyState, n: nat)
    requires e in EnemySpawns(level)
    ensures var t := Enemies.PatrolRun(e, n);
            && t.patrolStart == e.rect.x - 64 && t.patrolEnd == e.rect.x + 64
            && t.patrolStart <= t.rect.Left() && t.rect.Right() <= t.patrolEnd
            && e.rect.x - 64 <= t.rect.x <= e.rect.x + 32
            && t.rect.y == e.rect.y
            && (t.changeX == 2 || t.changeX == -2)
  {
    GridScanMembership('E', EnemyTile, level, e);
    var r, c :| 0 <= r < |level| && 0 <= c < |level[r]| && level[r][c] == 'E' && e == EnemyTile(c, r);
    Enemies.EnemyStaysWithinBounds(c * TILE_SIZE, r * TILE_SIZE, n);
  }

  /** Setting up a level moves the player to the last 'P' in row-major order and leaves it
      where it was when there is none. */
  lemma PlayerPlacement(level: seq<string>, s: Players.PlayerState)
    ensures NoMarker(level, 'P') ==> Placed(s, PlayerSpawns(level)) == s
    ensures forall r, c :: IsLastMarker(level, 'P', r, c) ==>
              Placed(s, PlayerSpawns(level)).rect == s.rect.(x := c * 32, y := r * 32)
  {
    var spawns := PlayerSpawns(level);
    if spawns != [] {
      GridScanLast('P', SpawnTile, level);
      var r0, c0 :| IsLastMarker(level, 'P', r0, c0) && spawns[|spawns| - 1] == SpawnTile(c0, r0);
      forall r, c | IsLastMarker(level, 'P', r, c) ensures r == r0 && c == c0 {
        assert level[r][c] == 'P' && level[r0][c0] == 'P';
      }
    } else {
      forall r, c | 0 <= r < |level| && 0 <= c < |level[r]| ensures level[r][c] != 'P' {
        GridScanMembership('P', SpawnTile, level, SpawnTile(c, r));
      }
    }
  }

  /** The only 'P' of room 1 is at column 11, row 7, so it is also the last. */
  lemma Level1SpawnCell()
    ensures Cells(LEVEL_1, 'P') == {(7, 11)}
    ensures IsLastMarker(LEVEL_1, 'P', 7, 11)
  {
    var L := LEVEL_1;
    assert forall c :: 0 <= c < |L[0]| ==> L[0][c] != 'P';
    assert forall c :: 0 <= c < |L[1]| ==> L[1][c] != 'P';
    assert forall c :: 0 <= c < |L[2]| ==> L[2][c] != 'P';
    assert forall c :: 0 <= c < |L[3]| ==> L[3][c] != 'P';
    assert forall c :: 0 <= c < |L[4]| ==> L[4][c] != 'P';
    assert forall c :: 0 <= c < |L[5]| ==> L[5][c] != 'P';
    assert forall c :: 0 <= c < |L[6]| ==> L[6][c] != 'P';
    assert forall c :: 0 <= c < |L[7]| && c != 11 ==> L[7][c] != 'P';
    assert L[7][11] == 'P';
    assert forall c :: 11 < c < |L[7]| ==> L[7][c] != 'P';
    assert forall c :: 0 <= c < |L[8]| ==> L[8][c] != 'P';
    assert forall c :: 0 <= c < |L[9]| ==> L[9][c] != 'P';
    assert forall c :: 0 <= c < |L[10]| ==> L[10][c] != 'P';
    assert forall c :: 0 <= c < |L[11]| ==> L[11][c] != 'P';
  }

  /** Rows 0 to 8 of room 1 hold no 'D'. */
  lemma Level1UpperRowsHaveNoDoor()
    ensures forall r, c :: 0 <= r < 9 && 0 <= c < |LEVEL_1[r]| ==> LEVEL_1[r][c] != 'D'
  {
    var L := LEVEL_1;
    assert forall c :: 0 <= c < |L[0]| ==> L[0][c] != 'D';
    assert forall c :: 0 <= c < |L[1]| ==> L[1][c] != 'D';
    assert forall c :: 0 <= c < |L[2]| ==> L[2][c] != 'D';
    assert forall c :: 0 <= c < |L[3]| ==> L[3][c] != 'D';
    assert forall c :: 0 <= c < |L[4]| ==> L[4][c] != 'D';
    assert forall c :: 0 <= c < |L[5]| ==> L[5][c] != 'D';
    assert forall c :: 0 <= c < |L[6]| ==> L[6][c] != 'D';
    assert forall c :: 0 <= c < |L[7]| ==> L[7][c] != 'D';
    assert forall c :: 0 <= c < |L[8]| ==> L[8][c] != 'D';
  }

  /** The only 'D' of room 1 is at column 21, row 9. */
  lemma Level1DoorCells()
    ensures Cells(LEVEL_1, 'D') == {(9, 21)}
  {
    var L := LEVEL_1;
    Level1UpperRowsHaveNoDoor();
    assert forall c :: 0 <= c < |L[9]| && c != 21 ==> L[9][c] != 'D';
    assert forall c :: 0 <= c < |L[10]| ==> L[10][c] != 'D';
    assert forall c :: 0 <= c < |L[11]| ==> L[11][c] != 'D';
    assert L[9][21] == 'D';
  }

  /** A level whose only cell holding `marker` is (r, c) yields exactly make(c, r). */
  lemma GridScanSingle<T>(marker: char, make: (int, int) -> T, level: seq<string>, r: int, c: int)
    requires Cells(level, marker) == {(r, c)}
    ensures GridScan(marker, make, level) == [make(c, r)]
  {
    GridScanCount(marker, make, level);
    var out := GridScan(marker, make, level);
    assert |out| == 1;
    GridScanMembership(marker, make, level, out[0]);
    assert out[0] in out;
    var r', c' :| 0 <= r' < |level| && 0 <= c' < |level[r']| && level[r'][c'] == marker && out[0] == make(c', r');
    assert (r', c') in Cells(level, marker);
  }

  /** A level whose last 'P' is at (r, c) puts the player on that cell. */
  lemma SpawnOnLastMarker(level: seq<string>, r: int, c: int, s: Players.PlayerState)
    requires IsLastMarker(level, 'P', r, c)
    ensures Placed(s, PlayerSpawns(level)).rect == s.rect.(x := c * 32, y := r * 32)
  {
    PlayerPlacement(level, s);
  }

  /** Room 1 puts the player at (352, 224), from its only 'P' at column 11, row 7, and has
      one door, at (672, 288), from its only 'D' at column 21, row 9. */
  lemma Level1Layout(s: Players.PlayerState)
    ensures Placed(s, PlayerSpawns(LEVEL_1)).rect == s.rect.(x := 352, y := 224)
    ensures Doors(LEVEL_1) == [Door(Rect(672, 288, 32, 64))]
  {
    Level1SpawnCell();
    SpawnOnLastMarker(LEVEL_1, 7, 11, s);
    Level1DoorCells();
    GridScanSingle('D', DoorTile, LEVEL_1, 9, 21);
  }

  /** Room 2 is made of blanks and platforms, except its one 'E' at column 20, row 8. */
  lemma Level2Cells()
    ensures forall r, c :: 0 <= r < |LEVEL_2| && 0 <= c < |LEVEL_2[r]| ==>
              LEVEL_2[r][c] == ' ' || LEVEL_2[r][c] == 'X' || (r == 8 && c == 20)
    ensures LEVEL_2[8][20] == 'E'
  {
    var L := LEVEL_2;
    assert forall c :: 0 <= c < |L[0]| ==> L[0][c] == ' ' || L[0][c] == 'X';
    assert forall c :: 0 <= c < |L[1]| ==> L[1][c] == ' ' || L[1][c] == 'X';
    assert forall c :: 0 <= c < |L[2]| ==> L[2][c] == ' ' || L[2][c] == 'X';
    assert forall c :: 0 <= c < |L[3]| ==> L[3][c] == ' ' || L[3][c] == 'X';
    assert forall c :: 0 <= c < |L[4]| ==> L[4][c] == ' ' || L[4][c] == 'X';
    assert forall c :: 0 <= c < |L[5]| ==> L[5][c] == ' ' || L[5][c] == 'X';
    assert forall c :: 0 <= c < |L[6]| ==> L[6][c] == ' ' || L[6][c] == 'X';
    assert forall c :: 0 <= c < |L[7]| ==> L[7][c] == ' ' || L[7][c] == 'X';
    assert forall c :: 0 <= c < |L[8]| && c != 20 ==> L[8][c] == ' ' || L[8][c] == 'X';
    assert forall c :: 0 <= c < |L[9]| ==> L[9][c] == ' ' || L[9][c] == 'X';
    assert forall c :: 0 <= c < |L[10]| ==> L[10][c] == ' ' || L[10][c] == 'X';
    assert forall c :: 0 <= c < |L[11]| ==> L[11][c] == ' ' || L[11][c] == 'X';
  }

  /** Room 2 has no 'P' (so setting it up leaves the player where it was), no door, and one
      enemy, at (640, 256), patrolling between 576 and 704. */
  lemma Level2Layout(s: Players.PlayerState)
    ensures Placed(s, PlayerSpawns(LEVEL_2)) == s
    ensures Doors(LEVEL_2) == []
    ensures EnemySpawns(LEVEL_2) == [Enemies.Spawned(640, 256, 576, 704)]
  {
    Level2Cells();
    PlayerPlacement(LEVEL_2, s);
    assert Cells(LEVEL_2, 'E') == {(8, 20)};
    GridScanSingle('E', EnemyTile, LEVEL_2, 8, 20);
    DoorsOfLevel(LEVEL_2);
    assert Cells(LEVEL_2, 'D') == {};
  }
}

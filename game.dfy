/** The game: two rooms built from level grids, the player, the platforms it collides
    with, the doors that lead from room 1 to room 2 and the enemies that end the game
    on contact. One frame handles the input events, then moves everything, then checks
    the door and enemy triggers. */
module GameLoop {
  import opened Geometry
  import opened GamePlatform
  import opened Levels
  import Enemies
  import Players

  /** Where the player is put on entering room 2 (its grid has no 'P'). */
  const ROOM_2_ENTRY_X := 100
  const ROOM_2_ENTRY_Y := Players.SCREEN_HEIGHT - TILE_SIZE * 10

  /** The keys the game tells apart (each action has two bindings, merged here). */
  datatype Key = LeftKey | RightKey | JumpKey | OtherKey

  datatype Event = Quit | KeyDown(key: Key) | KeyUp(key: Key) | OtherEvent

  /** Everything one frame reads and writes. */
  datatype World = World(running: bool, room: int, player: Players.PlayerState,
                         platforms: seq<Platform>, doors: seq<Door>, enemies: seq<Enemies.EnemyState>)

  /** Setting up a level throws away the platforms, doors and enemies and builds them
      afresh from the grid; the player object is kept and only repositioned. */
  function Setup(w: World, level: seq<string>): World {
    w.(platforms := Platforms(level), doors := Doors(level), enemies := EnemySpawns(level),
       player := Placed(w.player, PlayerSpawns(level)))
  }

  /** The world when the game starts: room 1, running, player created at (50, 536). */
  function Start(): World {
    Setup(World(true, 1, Players.Initial(50, Players.SCREEN_HEIGHT - TILE_SIZE * 2), [], [], []), LEVEL_1)
  }

  /** One input event. */
  function React(w: World, e: Event): World {
    match e
    case Quit => w.(running := false)
    case KeyDown(k) =>
      if k == LeftKey then w.(player := Players.Running(w.player, -Players.RUN_SPEED))
      else if k == RightKey then w.(player := Players.Running(w.player, Players.RUN_SPEED))
      else if k == JumpKey then w.(player := Players.Jumped(w.player))
      else w
    case KeyUp(k) =>
      if k == LeftKey && w.player.changeX < 0 then w.(player := Players.Running(w.player, 0))
      else if k == RightKey && w.player.changeX > 0 then w.(player := Players.Running(w.player, 0))
      else w
    case OtherEvent => w
  }

  /** The events of one frame, in order. */
  function ReactAll(w: World, events: seq<Event>): World
    decreases |events|
  {
    if events == [] then w else React(ReactAll(w, events[..|events| - 1]), events[|events| - 1])
  }

  /** Entering room 2: rebuild from its grid, then put the player at the entry point. */
  function EnterRoom2(w: World): World {
    var s := Setup(w.(room := 2), LEVEL_2);
    s.(player := s.player.(rect := s.player.rect.(x := ROOM_2_ENTRY_X, y := ROOM_2_ENTRY_Y)))
  }

  /** The door trigger: touching a door in room 1 enters room 2; in any other room it
      does nothing. */
  function DoorPass(w: World): World {
    if HitList(w.player.rect, w.doors, DoorRect) != [] && w.room == 1 then EnterRoom2(w) else w
  }

  /** The player's physics and the enemies' patrols for one frame; platforms and doors
      have no update of their own. */
  function Physics(w: World, toInt: real -> int): World {
    w.(player := Players.Step(w.player, w.platforms, toInt), enemies := Enemies.PatrolAll(w.enemies))
  }

  /** The enemy trigger: touching any enemy ends the game. */
  function EnemyCheck(w: World): World {
    if HitList(w.player.rect, w.enemies, Enemies.EnemyRect) != [] then w.(running := false) else w
  }

  /** One update of the game (everything after the input events). */
  function Tick(w: World, toInt: real -> int): World {
    EnemyCheck(DoorPass(Physics(w, toInt)))
  }

  /** One whole frame: the input events, then the update. */
  function Frame(w: World, events: seq<Event>, toInt: real -> int): World {
    Tick(ReactAll(w, events), toInt)
  }

  // Properties of the model.

  /** The player is always a 32 by 32 rectangle. */
  ghost predicate PlayerSized(w: World) {
    w.player.rect.w == Players.PLAYER_SIZE && w.player.rect.h == Players.PLAYER_SIZE
  }

  /** The game starts in room 1, running, with the player 32 by 32 at room 1's 'P',
      (352, 224), and room 1's one door at (672, 288). */
  lemma StartState()
    ensures var w := Start();
            && w.running && w.room == 1 && PlayerSized(w)
            && w.player.rect == Rect(352, 224, 32, 32)
            && w.doors == [Door(Rect(672, 288, 32, 64))]
            && w.platforms == Platforms(LEVEL_1) && w.enemies == EnemySpawns(LEVEL_1)
  {
    Level1Layout(Players.Initial(50, Players.SCREEN_HEIGHT - TILE_SIZE * 2));
  }

  /** Input events and updates only ever move the player; its size never changes. */
  lemma {:induction false} InputKeepsPlayerSize(w: World, events: seq<Event>)
    requires PlayerSized(w)
    ensures PlayerSized(ReactAll(w, events))
    decreases |events|
  {
    if events != [] {
      InputKeepsPlayerSize(w, events[..|events| - 1]);
    }
  }

  lemma TickKeepsPlayerSize(w: World, toInt: real -> int)
    requires PlayerSized(w)
    ensures PlayerSized(Tick(w, toInt))
  {
    Players.StepInvariants(w.player, w.platforms, toInt);
    var u := Physics(w, toInt);
    assert PlayerSized(u);
    assert PlayerSized(DoorPass(u));
  }

  lemma FrameKeepsPlayerSize(w: World, events: seq<Event>, toInt: real -> int)
    requires PlayerSized(w)
    ensures PlayerSized(Frame(w, events, toInt))
  {
    InputKeepsPlayerSize(w, events);
    TickKeepsPlayerSize(ReactAll(w, events), toInt);
  }

  /** Setting up a level forgets every platform, door and enemy that was there: they
      depend on the level alone. The player keeps everything but its position, which only
      a 'P' changes. */
  lemma SetupForgetsTheOldRoom(w1: World, w2: World, level: seq<string>)
    ensures Setup(w1, level).platforms == Setup(w2, level).platforms == Platforms(level)
    ensures Setup(w1, level).doors == Setup(w2, level).doors == Doors(level)
    ensures Setup(w1, level).enemies == Setup(w2, level).enemies == EnemySpawns(level)
    ensures var p := Setup(w1, level).player;
            && p.rect.w == w1.player.rect.w && p.rect.h == w1.player.rect.h
            && p.changeX == w1.player.changeX && p.changeY == w1.player.changeY
            && p.onGround == w1.player.onGround
            && (PlayerSpawns(level) == [] ==> p == w1.player)
    ensures Setup(w1, level).running == w1.running && Setup(w1, level).room == w1.room
  {
  }

  /** Touching a door in room 1 enters room 2: the platforms, doors and enemies are exactly
      room 2's, and the player is at (100, 280) wherever it was before. */
  lemma DoorEntersRoom2(w: World, toInt: real -> int)
    requires w.room == 1
    requires HitList(Players.Step(w.player, w.platforms, toInt).rect, w.doors, DoorRect) != []
    ensures var t := Tick(w, toInt);
            && t.room == 2
            && t.platforms == Platforms(LEVEL_2) && t.doors == [] && t.doors == Doors(LEVEL_2)
            && t.enemies == [Enemies.Spawned(640, 256, 576, 704)] && t.enemies == EnemySpawns(LEVEL_2)
            && t.player.rect.x == 100 && t.player.rect.y == 280
  {
    Level2Layout(Players.Step(w.player, w.platforms, toInt));
  }

  /** Entering room 2 never ends the game on that frame: a 32 by 32 player at (100, 280)
      touches no enemy of room 2. */
  lemma EnteringRoom2IsSafe(w: World, toInt: real -> int)
    requires w.room == 1 && PlayerSized(w)
    requires HitList(Players.Step(w.player, w.platforms, toInt).rect, w.doors, DoorRect) != []
    ensures Tick(w, toInt).running == w.running
  {
    var p := Players.Step(w.player, w.platforms, toInt);
    Players.StepInvariants(w.player, w.platforms, toInt);
    Level2Layout(p);
    var t := DoorPass(Physics(w, toInt));
    assert t.enemies == [Enemies.Spawned(640, 256, 576, 704)];
    assert !Overlaps(t.player.rect, t.enemies[0].rect);
  }

  /** The entry point of room 2 is not free: the player's lower 24 rows of pixels sit inside
      room 2's platform at column 3, row 9, so the next frame's clamps decide where it ends
      up. */
  lemma Room2EntryIsInsideAPlatform(w: World, toInt: real -> int)
    requires w.room == 1 && PlayerSized(w)
    requires HitList(Players.Step(w.player, w.platforms, toInt).rect, w.doors, DoorRect) != []
    ensures var t := Tick(w, toInt);
            && Platform(Rect(96, 288, 32, 32), GREEN) in t.platforms
            && Overlaps(t.player.rect, Rect(96, 288, 32, 32))
  {
    DoorEntersRoom2(w, toInt);
    Players.StepInvariants(w.player, w.platforms, toInt);
    Level2PlatformAt3And9();
  }

  /** Without a door transition (no door touched, or not in room 1) nothing is rebuilt: the
      room, platforms and doors stay, the player only moves by its physics, and the same
      enemies take one patrol step. */
  lemma NoTransitionKeepsRoom(w: World, toInt: real -> int)
    requires w.room != 1 || HitList(Players.Step(w.player, w.platforms, toInt).rect, w.doors, DoorRect) == []
    ensures var t := Tick(w, toInt);
            && t.room == w.room && t.platforms == w.platforms && t.doors == w.doors
            && t.player == Players.Step(w.player, w.platforms, toInt)
            && t.enemies == Enemies.PatrolAll(w.enemies)
  {
  }

  /** The game stops after an update exactly when it was stopped already or the player,
      where it ends up, overlaps one of the enemies the room has then (room 2's fresh
      enemies, right after a transition). */
  lemma GameOverOnContact(w: World, toInt: real -> int)
    ensures var u := DoorPass(Physics(w, toInt));
            && Tick(w, toInt).running
               == (w.running && forall e :: e in u.enemies ==> !Overlaps(u.player.rect, e.rect))
            && Tick(w, toInt) == u.(running := Tick(w, toInt).running)
  {
    var u := DoorPass(Physics(w, toInt));
    var hits := HitList(u.player.rect, u.enemies, Enemies.EnemyRect);
    if hits != [] {
      assert hits[0] in hits;
    }
  }

  /** The room only ever goes from 1 to 2, and a stopped game stays stopped. */
  lemma RoomOnlyAdvances(w: World, toInt: real -> int)
    requires w.room == 1 || w.room == 2
    ensures var t := Tick(w, toInt);
            && (t.room == 1 || t.room == 2) && t.room >= w.room
            && (!w.running ==> !t.running)
  {
  }

  /** Releasing a direction key stops the player only if it is moving that way: afterwards
      it is not moving that way, and a velocity the other way (or none) is left alone. */
  lemma KeyUpStopsOnlyMatchingDirection(w: World)
    ensures var t := React(w, KeyUp(LeftKey));
            && t.player.changeX >= 0
            && (w.player.changeX >= 0 ==> t == w)
            && (w.player.changeX < 0 ==> t == w.(player := w.player.(changeX := 0)))
    ensures var t := React(w, KeyUp(RightKey));
            && t.player.changeX <= 0
            && (w.player.changeX <= 0 ==> t == w)
            && (w.player.changeX > 0 ==> t == w.(player := w.player.(changeX := 0)))
  {
  }

  /** Pressing left, then right, then releasing left keeps the player running right: a
      stale release does not cancel the newer direction. */
  lemma StaleKeyUpIsIgnored(w: World)
    ensures ReactAll(w, [KeyDown(LeftKey), KeyDown(RightKey), KeyUp(LeftKey)]).player.changeX == Players.RUN_SPEED
  {
    var events := [KeyDown(LeftKey), KeyDown(RightKey), KeyUp(LeftKey)];
    assert events[..2][..1] == [KeyDown(LeftKey)];
    assert events[..2] == [KeyDown(LeftKey), KeyDown(RightKey)];
  }

  /** Input never moves the player, never changes its ground flag, and never touches the
      room or what is in it. */
  lemma {:induction false} InputOnlySteers(w: World, events: seq<Event>)
    ensures var t := ReactAll(w, events);
            && t.player.rect == w.player.rect && t.player.onGround == w.player.onGround
            && t.room == w.room && t.platforms == w.platforms && t.doors == w.doors && t.enemies == w.enemies
            && (!w.running ==> !t.running)
    decreases |events|
  {
    if events != [] {
      InputOnlySteers(w, events[..|events| - 1]);
    }
  }

  /** A quit event anywhere in a frame's input ends the game at the end of that frame
      (the update of that frame still runs). */
  lemma {:induction false} QuitEndsTheGame(w: World, events: seq<Event>, toInt: real -> int)
    requires Quit in events
    ensures !ReactAll(w, events).running
    ensures !Frame(w, events, toInt).running
    decreases |events|
  {
    var n := |events| - 1;
    if events[n] != Quit {
      assert Quit in events[..n] by {
        var i :| 0 <= i < |events| && events[i] == Quit;
        assert events[..n][i] == Quit;
      }
      QuitEndsTheGame(w, events[..n], toInt);
    }
  }

  /** The game session (main.py's Game). The player object is created once and kept for
      the whole game; the other entities are rebuilt whenever a level is set up. */
  class Game {
    var running: bool
    var currentRoom: int
    const player: Players.Player
    var platforms: seq<Platform>
    var doors: seq<Door>
    var enemies: seq<Enemies.Enemy>

    /** The enemies are distinct objects. */
    ghost predicate Valid()
      reads this
    {
      forall i, j :: 0 <= i < j < |enemies| ==> enemies[i] != enemies[j]
    }

    function View(): World
      reads this, player, enemies
    {
      World(running, currentRoom, player.State(), platforms, doors, Enemies.StatesOf(enemies))
    }

    constructor ()
      ensures Valid() && View() == Start()
    {
      running := true;
      currentRoom := 1;
      platforms := [];
      doors := [];
      enemies := [];
      player := new Players.Player(50, Players.SCREEN_HEIGHT - TILE_SIZE * 2);
      new;
      SetupLevel(LEVEL_1);
    }

    /** Builds the platforms, doors and enemies of a level, row by row and left to right,
        and moves the player to each 'P' met. */
    method SetupLevel(level: seq<string>)
      modifies this, player
      ensures Valid() && View() == Setup(old(View()), level)
      ensures forall e :: e in enemies ==> fresh(e)
    {
      platforms := [];
      doors := [];
      enemies := [];
      ghost var s0 := player.State();
      ghost var spawned: seq<Enemies.EnemyState> := [];
      var r := 0;
      while r < |level|
        invariant 0 <= r <= |level|
        invariant running == old(running) && currentRoom == old(currentRoom)
        invariant platforms == Platforms(level[..r])
        invariant doors == Doors(level[..r])
        invariant spawned == EnemySpawns(level[..r])
        invariant player.State() == Placed(s0, PlayerSpawns(level[..r]))
        invariant |enemies| == |spawned| && forall k :: 0 <= k < |enemies| ==> enemies[k].State() == spawned[k]
        invariant Valid() && forall e :: e in enemies ==> fresh(e)
      {
        SetupRow(level[r], r, spawned);
        PlacedAppend(s0, PlayerSpawns(level[..r]), RowScan('P', SpawnTile, level[r], r));
        spawned := spawned + RowScan('E', EnemyTile, level[r], r);
        GridScanExtend('X', PlatformTile, level, r);
        GridScanExtend('D', DoorTile, level, r);
        GridScanExtend('E', EnemyTile, level, r);
        GridScanExtend('P', SpawnTile, level, r);
        r := r + 1;
      }
      assert level[..r] == level;
      assert Enemies.StatesOf(enemies) == spawned;
    }

    /** One row of a level, left to right: a platform per 'X', a door per 'D', an enemy
        per 'E', and the player moved to each 'P'. `spawned` is what the enemies built so
        far are. */
    method SetupRow(row: string, r: int, ghost spawned: seq<Enemies.EnemyState>)
      requires Valid()
      requires |enemies| == |spawned| && forall k :: 0 <= k < |enemies| ==> enemies[k].State() == spawned[k]
      modifies this, player
      ensures running == old(running) && currentRoom == old(currentRoom)
      ensures platforms == old(platforms) + RowScan('X', PlatformTile, row, r)
      ensures doors == old(doors) + RowScan('D', DoorTile, row, r)
      ensures player.State() == Placed(old(player.State()), RowScan('P', SpawnTile, row, r))
      ensures var all := spawned + RowScan('E', EnemyTile, row, r);
              |enemies| == |all| && forall k :: 0 <= k < |enemies| ==> enemies[k].State() == all[k]
      ensures Valid() && forall e :: e in enemies ==> e in old(enemies) || fresh(e)
    {
      ghost var s0 := player.State();
      ghost var all := spawned;
      var c := 0;
      while c < |row|
        invariant 0 <= c <= |row|
        invariant running == old(running) && currentRoom == old(currentRoom)
        invariant platforms == old(platforms) + RowScan('X', PlatformTile, row[..c], r)
        invariant doors == old(doors) + RowScan('D', DoorTile, row[..c], r)
        invariant all == spawned + RowScan('E', EnemyTile, row[..c], r)
        invariant player.State() == Placed(s0, RowScan('P', SpawnTile, row[..c], r))
        invariant |enemies| == |all| && forall k :: 0 <= k < |enemies| ==> enemies[k].State() == all[k]
        invariant Valid() && forall e :: e in enemies ==> e in old(enemies) || fresh(e)
      {
        var ch := row[c];
        RowScanExtend('X', PlatformTile, row, c, r);
        RowScanExtend('D', DoorTile, row, c, r);
        RowScanExtend('E', EnemyTile, row, c, r);
        RowScanExtend('P', SpawnTile, row, c, r);
        if ch == 'X' {
          platforms := platforms + [NewPlatform(c * TILE_SIZE, r * TILE_SIZE, TILE_SIZE, TILE_SIZE, GREEN)];
        } else if ch == 'P' {
          player.rect := player.rect.(x := c * TILE_SIZE, y := r * TILE_SIZE);
        } else if ch == 'D' {
          doors := doors + [Door(Rect(c * TILE_SIZE, r * TILE_SIZE, TILE_SIZE, TILE_SIZE * 2))];
        } else if ch == 'E' {
          var enemy := new Enemies.Enemy(c * TILE_SIZE, r * TILE_SIZE,
                                         c * TILE_SIZE - TILE_SIZE * 2, c * TILE_SIZE + TILE_SIZE * 2);
          enemies := enemies + [enemy];
          all := all + [EnemyTile(c, r)];
        }
        c := c + 1;
      }
      assert row[..c] == row;
    }

    /** One input event, through the player's own commands. */
    method HandleEvent(e: Event)
      modifies this, player
      ensures View() == React(old(View()), e)
      ensures enemies == old(enemies)
    {
      match e
      case Quit =>
        running := false;
      case KeyDown(k) =>
        if k == LeftKey {
          player.GoLeft();
        }
        if k == RightKey {
          player.GoRight();
        }
        if k == JumpKey {
          player.Jump();
        }
      case KeyUp(k) =>
        if k == LeftKey && player.changeX < 0 {
          player.Stop();
        }
        if k == RightKey && player.changeX > 0 {
          player.Stop();
        }
      case OtherEvent =>
    }

    /** The events of one frame, in order. */
    method HandleEvents(events: seq<Event>)
      modifies this, player
      ensures View() == ReactAll(old(View()), events)
      ensures enemies == old(enemies)
    {
      var i := 0;
      while i < |events|
        invariant 0 <= i <= |events|
        invariant View() == ReactAll(old(View()), events[..i])
        invariant enemies == old(enemies)
      {
        HandleEvent(events[i]);
        assert events[..i + 1][..i] == events[..i];
        i := i + 1;
      }
      assert events[..i] == events;
    }

    /** One update: the player's physics against the platforms, every enemy's patrol, then
        the door trigger, then the enemy trigger. */
    method Update(toInt: real -> int)
      requires Valid()
      modifies this, player, enemies
      ensures Valid() && View() == Tick(old(View()), toInt)
    {
      ghost var w0 := View();
      player.Update(platforms, toInt);
      UpdateEnemies();
      ghost var w1 := View();
      assert w1 == Physics(w0, toInt);
      PassDoors();
      assert View() == DoorPass(w1);
      CheckEnemies();
    }

    /** The enemy trigger: the game ends if the player touches any enemy. */
    method CheckEnemies()
      modifies this
      ensures View() == EnemyCheck(old(View()))
      ensures enemies == old(enemies)
    {
      var enemyHits := HitList(player.rect, Enemies.StatesOf(enemies), Enemies.EnemyRect);
      if enemyHits != [] {
        running := false;
      }
    }

    /** The door trigger: every door the player touches is taken in turn; from room 1 that
        leads to room 2, and from then on (room 2) a door does nothing. */
    method PassDoors()
      requires Valid()
      modifies this, player
      ensures Valid() && View() == DoorPass(old(View()))
    {
      var doorHits := HitList(player.rect, doors, DoorRect);
      var k := 0;
      while k < |doorHits|
        invariant 0 <= k <= |doorHits|
        invariant Valid()
        invariant View() == if k == 0 then old(View()) else DoorPass(old(View()))
      {
        if currentRoom == 1 {
          GoToRoom2();
        } else if currentRoom == 2 {
          // A door in room 2 leads nowhere.
        }
        k := k + 1;
      }
    }

    /** Every enemy takes its patrol step, in order. */
    method UpdateEnemies()
      requires Valid()
      modifies enemies
      ensures Enemies.StatesOf(enemies) == Enemies.PatrolAll(old(Enemies.StatesOf(enemies)))
    {
      var i := 0;
      while i < |enemies|
        invariant 0 <= i <= |enemies|
        invariant forall k :: 0 <= k < i ==> enemies[k].State() == Enemies.PatrolStep(old(enemies[k].State()))
        invariant forall k :: i <= k < |enemies| ==> enemies[k].State() == old(enemies[k].State())
      {
        enemies[i].Update();
        i := i + 1;
      }
    }

    /** Room 1's door: switch to room 2, build it, and put the player at its entry point. */
    method GoToRoom2()
      modifies this, player
      ensures Valid() && View() == EnterRoom2(old(View()))
    {
      currentRoom := 2;
      SetupLevel(LEVEL_2);
      player.rect := player.rect.(x := ROOM_2_ENTRY_X, y := ROOM_2_ENTRY_Y);
    }

    /** One iteration of the main loop, without the clock and the drawing. */
    method RunFrame(events: seq<Event>, toInt: real -> int)
      requires Valid()
      modifies this, player, enemies
      ensures Valid() && View() == Frame(old(View()), events, toInt)
    {
      HandleEvents(events);
      Update(toInt);
    }
  }
}

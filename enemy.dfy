/** Enemies: 32 by 32 sprites that patrol back and forth on the x axis between
    two bounds, ignoring gravity and platforms. */
module Enemies {
  import opened Geometry

  /** The size of a tile, and of an enemy. */
  const TILE_SIZE := 32
  /** The speed every enemy starts with; it is only ever negated afterwards. */
  const PATROL_SPEED := 2

  /** What an enemy is at one instant: where it is, its horizontal velocity and
      the patrol bounds it turns around at. */
  datatype EnemyState = EnemyState(rect: Rect, changeX: int, patrolStart: int, patrolEnd: int)

  /** A freshly built enemy: a 32 by 32 rectangle at (x, y) moving right at speed 2. */
  function Spawned(x: int, y: int, patrolStart: int, patrolEnd: int): EnemyState {
    EnemyState(Rect(x, y, TILE_SIZE, TILE_SIZE), PATROL_SPEED, patrolStart, patrolEnd)
  }

  /** An edge of the enemy has reached or passed one of its bounds. */
  predicate AtBound(s: EnemyState) {
    s.rect.Right() >= s.patrolEnd || s.rect.Left() <= s.patrolStart
  }

  /** One frame of patrol: move by the velocity, then turn around if an edge reached a bound. */
  function PatrolStep(s: EnemyState): (t: EnemyState)
    ensures t.rect.x == s.rect.x + s.changeX
    ensures t.rect.y == s.rect.y && t.rect.w == s.rect.w && t.rect.h == s.rect.h
    ensures t.patrolStart == s.patrolStart && t.patrolEnd == s.patrolEnd
    ensures AtBound(t) ==> t.changeX == -s.changeX
    ensures !AtBound(t) ==> t.changeX == s.changeX
  {
    var moved := s.rect.(x := s.rect.x + s.changeX);
    var turn := moved.Right() >= s.patrolEnd || moved.Left() <= s.patrolStart;
    EnemyState(moved, if turn then -s.changeX else s.changeX, s.patrolStart, s.patrolEnd)
  }

  /** The state after n frames of patrol. */
  function PatrolRun(s: EnemyState, n: nat): EnemyState {
    if n == 0 then s else PatrolStep(PatrolRun(s, n - 1))
  }

  /** Whatever the starting state, patrolling only ever negates the velocity, and never
      touches the row, the size or the bounds. */
  lemma {:induction false} PatrolKeepsSpeedAndBounds(s: EnemyState, n: nat)
    ensures var t := PatrolRun(s, n);
            && (t.changeX == s.changeX || t.changeX == -s.changeX)
            && t.patrolStart == s.patrolStart && t.patrolEnd == s.patrolEnd
            && t.rect.y == s.rect.y && t.rect.w == s.rect.w && t.rect.h == s.rect.h
  {
    if n > 0 {
      PatrolKeepsSpeedAndBounds(s, n - 1);
    }
  }

  /** The invariant of a patrolling enemy: the left edge lies between the start bound and
      the last position whose right edge still fits before the end bound, on the same
      parity as the start bound, and the velocity (of magnitude 2) never points past the
      bound the enemy is standing on. */
  ghost predicate Patrolling(s: EnemyState) {
    var lo := s.patrolStart;
    var hi := s.patrolEnd - s.rect.w;
    && lo < hi && (hi - lo) % 2 == 0
    && lo <= s.rect.x <= hi && (s.rect.x - lo) % 2 == 0
    && ((s.changeX == PATROL_SPEED && s.rect.x < hi) || (s.changeX == -PATROL_SPEED && lo < s.rect.x))
  }

  /** The bounds the level parser gives an enemy spawned with its left edge at x: two
      tiles either side of that left edge. As the end bound is met by the right edge, the
      enemy reaches two tiles left of its spawn but only one tile right. */
  function ParsedBounds(x: int): (int, int) { (x - TILE_SIZE * 2, x + TILE_SIZE * 2) }

  /** An enemy built as the level parser builds it starts out patrolling. */
  lemma SpawnedIsPatrolling(x: int, y: int)
    ensures Patrolling(Spawned(x, y, ParsedBounds(x).0, ParsedBounds(x).1))
  {
  }

  /** One patrol step keeps the invariant. */
  lemma PatrolStepKeepsPatrolling(s: EnemyState)
    requires Patrolling(s)
    ensures Patrolling(PatrolStep(s))
  {
  }

  /** Any number of frames keeps the invariant, the bounds, the row and the size. */
  lemma {:induction false} PatrolRunKeepsPatrolling(s: EnemyState, n: nat)
    requires Patrolling(s)
    ensures var t := PatrolRun(s, n);
            && Patrolling(t)
            && t.patrolStart == s.patrolStart && t.patrolEnd == s.patrolEnd
            && t.rect.y == s.rect.y && t.rect.w == s.rect.w && t.rect.h == s.rect.h
  {
    if n > 0 {
      PatrolRunKeepsPatrolling(s, n - 1);
      PatrolStepKeepsPatrolling(PatrolRun(s, n - 1));
    }
  }

  /** An enemy placed by the level parser at (x, y) stays, for ever, with its left edge in
      [x - 64, x + 32] (so its whole rectangle inside its patrol bounds), at row y, with
      speed 2 and its bounds untouched. */
  lemma EnemyStaysWithinBounds(x: int, y: int, n: nat)
    ensures var t := PatrolRun(Spawned(x, y, ParsedBounds(x).0, ParsedBounds(x).1), n);
            && t.patrolStart == x - 64 && t.patrolEnd == x + 64
            && t.patrolStart <= t.rect.Left() && t.rect.Right() <= t.patrolEnd
            && x - 64 <= t.rect.x <= x + 32
            && t.rect.y == y
            && (t.changeX == 2 || t.changeX == -2)
  {
    SpawnedIsPatrolling(x, y);
    PatrolRunKeepsPatrolling(Spawned(x, y, ParsedBounds(x).0, ParsedBounds(x).1), n);
  }

  /** Running a + b frames is running a frames, then b more. */
  lemma {:induction false} PatrolRunAdd(s: EnemyState, a: nat, b: nat)
    ensures PatrolRun(s, a + b) == PatrolRun(PatrolRun(s, a), b)
  {
    if b > 0 {
      PatrolRunAdd(s, a, b - 1);
    }
  }

  /** An enemy moving right, not left of its start bound, advances 2 pixels a frame until its
      right edge meets the end bound, and turns exactly on that frame. */
  lemma {:induction false} SweepRight(s: EnemyState, k: nat)
    requires s.changeX == PATROL_SPEED && s.patrolStart <= s.rect.x
    requires s.rect.Right() + PATROL_SPEED * k <= s.patrolEnd
    ensures PatrolRun(s, k).rect == s.rect.(x := s.rect.x + PATROL_SPEED * k)
    ensures PatrolRun(s, k).patrolStart == s.patrolStart && PatrolRun(s, k).patrolEnd == s.patrolEnd
    ensures PatrolRun(s, k).changeX
            == if k > 0 && s.rect.Right() + PATROL_SPEED * k == s.patrolEnd then -PATROL_SPEED else PATROL_SPEED
  {
    if k > 0 {
      SweepRight(s, k - 1);
    }
  }

  /** An enemy moving left, not right of its end bound, retreats 2 pixels a frame until its
      left edge meets the start bound, and turns exactly on that frame. */
  lemma {:induction false} SweepLeft(s: EnemyState, k: nat)
    requires s.changeX == -PATROL_SPEED && s.rect.Right() <= s.patrolEnd
    requires s.patrolStart <= s.rect.x - PATROL_SPEED * k
    ensures PatrolRun(s, k).rect == s.rect.(x := s.rect.x - PATROL_SPEED * k)
    ensures PatrolRun(s, k).patrolStart == s.patrolStart && PatrolRun(s, k).patrolEnd == s.patrolEnd
    ensures PatrolRun(s, k).changeX
            == if k > 0 && s.rect.x - PATROL_SPEED * k == s.patrolStart then PATROL_SPEED else -PATROL_SPEED
  {
    if k > 0 {
      SweepLeft(s, k - 1);
    }
  }

  /** The sweep is exactly as wide as the bounds allow: an enemy placed by the level parser
      with its left edge at x reaches x + 32 (one tile right) after 16 frames and turns there,
      then reaches x - 64 (two tiles left) 48 frames later and turns again. */
  lemma PatrolReachesBothEnds(x: int, y: int)
    ensures var t := PatrolRun(Spawned(x, y, ParsedBounds(x).0, ParsedBounds(x).1), 16);
            t.rect.x == x + TILE_SIZE && t.changeX == -PATROL_SPEED
    ensures var t := PatrolRun(Spawned(x, y, ParsedBounds(x).0, ParsedBounds(x).1), 64);
            t.rect.x == x - TILE_SIZE * 2 && t.changeX == PATROL_SPEED
  {
    var s := Spawned(x, y, ParsedBounds(x).0, ParsedBounds(x).1);
    SweepRight(s, 16);
    SweepLeft(PatrolRun(s, 16), 48);
    PatrolRunAdd(s, 16, 48);
  }

  /** A sprite that patrols: enemy.py's Enemy. Its colour only fills its image. */
  class Enemy {
    var rect: Rect
    var changeX: int
    var patrolStart: int
    var patrolEnd: int

    function State(): EnemyState
      reads this
    {
      EnemyState(rect, changeX, patrolStart, patrolEnd)
    }

    constructor (x: int, y: int, patrolStart: int, patrolEnd: int)
      ensures State() == Spawned(x, y, patrolStart, patrolEnd)
    {
      rect := Rect(x, y, TILE_SIZE, TILE_SIZE);
      changeX := PATROL_SPEED;
      this.patrolStart := patrolStart;
      this.patrolEnd := patrolEnd;
    }

    method Update()
      modifies this
      ensures State() == PatrolStep(old(State()))
    {
      rect := rect.(x := rect.x + changeX);
      if rect.Right() >= patrolEnd || rect.Left() <= patrolStart {
        changeX := changeX * -1;
      }
    }
  }

  /** The states of a sequence of enemies, in order. */
  function StatesOf(es: seq<Enemy>): (r: seq<EnemyState>)
    reads es
    ensures |r| == |es|
    ensures forall k :: 0 <= k < |es| ==> r[k] == es[k].State()
  {
    if es == [] then [] else [es[0].State()] + StatesOf(es[1..])
  }

  /** Every enemy of a group takes one patrol step. */
  function PatrolAll(es: seq<EnemyState>): (r: seq<EnemyState>)
    ensures |r| == |es|
    ensures forall k :: 0 <= k < |es| ==> r[k] == PatrolStep(es[k])
  {
    if es == [] then [] else [PatrolStep(es[0])] + PatrolAll(es[1..])
  }

  function EnemyRect(s: EnemyState): Rect { s.rect }
}

/** The player: a 32 by 32 sprite moved once per frame by an axis-ordered
    collision resolver (gravity, then horizontal move and clamp, then vertical
    move and clamp, then the floor of the screen). */
module Players {
  import opened Geometry
  import opened GamePlatform

  const SCREEN_HEIGHT := 600
  const PLAYER_SIZE := 32
  const RUN_SPEED := 5
  const JUMP_SPEED: real := -10.0
  /** The speed a resting player starts falling at, and the pull of gravity per frame. */
  const FALL_START: real := 1.0
  const GRAVITY: real := 0.35

  /** What the player is at one instant. The vertical velocity is a real number
      (the source mixes an integer start speed with a fractional acceleration). */
  datatype PlayerState = PlayerState(rect: Rect, changeX: int, changeY: real, onGround: bool)

  /** A new player at (x, y), at rest and not on the ground. */
  function Initial(x: int, y: int): PlayerState {
    PlayerState(Rect(x, y, PLAYER_SIZE, PLAYER_SIZE), 0, 0.0, false)
  }

  /** Gravity: a vertical velocity of exactly zero snaps to the fall start speed,
      any other is accelerated. */
  function Gravity(changeY: real): (r: real)
    ensures changeY == 0.0 ==> r == FALL_START
    ensures changeY != 0.0 ==> r - changeY == GRAVITY
  {
    if changeY == 0.0 then FALL_START else changeY + GRAVITY
  }

  /** The jump command: only a player on the ground takes off. */
  function Jumped(s: PlayerState): (t: PlayerState)
    ensures s.onGround ==> t == s.(changeY := JUMP_SPEED)
    ensures !s.onGround ==> t == s
  {
    if s.onGround then s.(changeY := JUMP_SPEED) else s
  }

  /** The run and stop commands set the horizontal velocity and nothing else. */
  function Running(s: PlayerState, changeX: int): (t: PlayerState)
    ensures t.changeX == changeX && t.rect == s.rect && t.changeY == s.changeY && t.onGround == s.onGround
  {
    s.(changeX := changeX)
  }

  /** The platforms the rectangle r collides with, in the group's insertion order
      (`HitList` states that they are exactly the overlapping ones). */
  function Hits(r: Rect, platforms: seq<Platform>): seq<Platform> {
    HitList(r, platforms, PlatformRect)
  }

  /** One horizontal clamp: moving right puts the right edge on the platform's left edge,
      moving left puts the left edge on the platform's right edge. */
  function PushOutX(r: Rect, changeX: int, p: Platform): Rect {
    if changeX > 0 then r.WithRight(p.rect.Left())
    else if changeX < 0 then r.WithLeft(p.rect.Right())
    else r
  }

  /** The horizontal clamps of a hit list applied in order. */
  function ResolveX(r: Rect, changeX: int, hits: seq<Platform>): Rect
    decreases |hits|
  {
    if hits == [] then r
    else PushOutX(ResolveX(r, changeX, hits[..|hits| - 1]), changeX, hits[|hits| - 1])
  }

  /** The part of the state the vertical pass changes. */
  datatype Vertical = Vertical(rect: Rect, changeY: real, onGround: bool)

  /** One vertical clamp: falling lands the bottom edge on the platform's top edge,
      rising puts the top edge on the platform's bottom edge; either way the vertical
      velocity is zeroed. */
  function PushOutY(v: Vertical, p: Platform): Vertical {
    if v.changeY > 0.0 then Vertical(v.rect.WithBottom(p.rect.Top()), 0.0, true)
    else if v.changeY < 0.0 then Vertical(v.rect.WithTop(p.rect.Bottom()), 0.0, v.onGround)
    else Vertical(v.rect, 0.0, v.onGround)
  }

  /** The vertical clamps of a hit list applied in order. */
  function ResolveY(v: Vertical, hits: seq<Platform>): Vertical
    decreases |hits|
  {
    if hits == [] then v
    else PushOutY(ResolveY(v, hits[..|hits| - 1]), hits[|hits| - 1])
  }

  /** Horizontally every hit clamps in turn, and each clamp ignores where the previous
      one left the rectangle: the last hit wins. Nothing but x ever changes. */
  lemma {:induction false} ResolveXLastWins(r: Rect, changeX: int, hits: seq<Platform>)
    ensures ResolveX(r, changeX, hits)
            == if hits == [] then r else PushOutX(r, changeX, hits[|hits| - 1])
  {
    if hits != [] {
      ResolveXLastWins(r, changeX, hits[..|hits| - 1]);
    }
  }

  /** Vertically the first clamp zeroes the velocity, so every later hit leaves the
      rectangle and the ground flag alone: the first hit wins. */
  lemma {:induction false} ResolveYFirstWins(v: Vertical, hits: seq<Platform>)
    ensures ResolveY(v, hits) == if hits == [] then v else PushOutY(v, hits[0])
  {
    if |hits| > 1 {
      var init := hits[..|hits| - 1];
      ResolveYFirstWins(v, init);
      assert init[0] == hits[0];
    }
  }

  // The phases of one frame, named so the properties below can speak of them.

  /** The rectangle after the horizontal move, before any clamp. */
  function MovedX(s: PlayerState): Rect {
    s.rect.(x := s.rect.x + s.changeX)
  }

  /** The platforms hit after the horizontal move. */
  function HitsX(s: PlayerState, platforms: seq<Platform>): seq<Platform> {
    Hits(MovedX(s), platforms)
  }

  /** The rectangle after the horizontal move and clamps. */
  function AfterX(s: PlayerState, platforms: seq<Platform>): Rect {
    ResolveX(MovedX(s), s.changeX, HitsX(s, platforms))
  }

  /** The rectangle after the vertical move. `toInt` is how the graphics library turns
      the fractional position into the rectangle's integer coordinate. */
  function MovedY(s: PlayerState, platforms: seq<Platform>, toInt: real -> int): Rect {
    var r := AfterX(s, platforms);
    r.(y := toInt(r.y as real + Gravity(s.changeY)))
  }

  /** The platforms hit after the vertical move. */
  function HitsY(s: PlayerState, platforms: seq<Platform>, toInt: real -> int): seq<Platform> {
    Hits(MovedY(s, platforms, toInt), platforms)
  }

  /** The vertical pass: the ground flag is reset and the hits are clamped in order. */
  function AfterY(s: PlayerState, platforms: seq<Platform>, toInt: real -> int): Vertical {
    ResolveY(Vertical(MovedY(s, platforms, toInt), Gravity(s.changeY), false), HitsY(s, platforms, toInt))
  }

  /** The floor fallback fires: the bottom edge reached the bottom of the screen. */
  predicate FloorFires(s: PlayerState, platforms: seq<Platform>, toInt: real -> int) {
    AfterY(s, platforms, toInt).rect.Bottom() >= SCREEN_HEIGHT
  }

  /** One frame of the player (player.py's update). */
  function Step(s: PlayerState, platforms: seq<Platform>, toInt: real -> int): PlayerState {
    var v := AfterY(s, platforms, toInt);
    if v.rect.Bottom() >= SCREEN_HEIGHT then
      PlayerState(v.rect.WithBottom(SCREEN_HEIGHT), s.changeX, 0.0, true)
    else
      PlayerState(v.rect, s.changeX, v.changeY, v.onGround)
  }

  /** A frame keeps the player's size and horizontal velocity, and leaves its bottom edge
      on or above the bottom of the screen; when the floor fallback fires the player
      stands on the bottom of the screen, on the ground and at rest vertically. */
  lemma StepInvariants(s: PlayerState, platforms: seq<Platform>, toInt: real -> int)
    ensures var t := Step(s, platforms, toInt);
            && t.rect.w == s.rect.w && t.rect.h == s.rect.h
            && t.changeX == s.changeX
            && t.rect.Bottom() <= SCREEN_HEIGHT
            && (FloorFires(s, platforms, toInt) ==> t.rect.Bottom() == SCREEN_HEIGHT && t.onGround && t.changeY == 0.0)
  {
    ResolveXLastWins(MovedX(s), s.changeX, HitsX(s, platforms));
    ResolveYFirstWins(Vertical(MovedY(s, platforms, toInt), Gravity(s.changeY), false), HitsY(s, platforms, toInt));
  }

  /** Horizontally: the player moves by its velocity, then, if it hit anything while
      moving, the LAST platform in list order that it overlapped decides where it stops. */
  lemma StepHorizontal(s: PlayerState, platforms: seq<Platform>, toInt: real -> int)
    ensures var hits := HitsX(s, platforms);
            var t := Step(s, platforms, toInt);
            && (hits == [] || s.changeX == 0 ==> t.rect.x == s.rect.x + s.changeX)
            && (hits != [] && s.changeX > 0 ==> t.rect.Right() == hits[|hits| - 1].rect.Left())
            && (hits != [] && s.changeX < 0 ==> t.rect.Left() == hits[|hits| - 1].rect.Right())
  {
    ResolveXLastWins(MovedX(s), s.changeX, HitsX(s, platforms));
    ResolveYFirstWins(Vertical(MovedY(s, platforms, toInt), Gravity(s.changeY), false), HitsY(s, platforms, toInt));
  }

  /** Vertically: with velocity v after gravity, a falling player that hits something
      lands on the FIRST platform in list order it overlaps (unless that lies below the
      bottom of the screen), a rising one bumps its head on it, and either way stops;
      with no hit it keeps moving and is airborne unless the floor catches it. */
  lemma StepVertical(s: PlayerState, platforms: seq<Platform>, toInt: real -> int)
    ensures var vy := Gravity(s.changeY);
            var hits := HitsY(s, platforms, toInt);
            var t := Step(s, platforms, toInt);
            && (hits != [] && vy > 0.0 && hits[0].rect.Top() < SCREEN_HEIGHT ==>
                  t.rect.Bottom() == hits[0].rect.Top() && t.onGround && t.changeY == 0.0)
            && (hits != [] && vy < 0.0 && hits[0].rect.Bottom() + s.rect.h < SCREEN_HEIGHT ==>
                  t.rect.Top() == hits[0].rect.Bottom() && !t.onGround && t.changeY == 0.0)
            && (hits == [] && MovedY(s, platforms, toInt).Bottom() < SCREEN_HEIGHT ==>
                  t.rect == MovedY(s, platforms, toInt) && !t.onGround && t.changeY == vy)
  {
    ResolveXLastWins(MovedX(s), s.changeX, HitsX(s, platforms));
    ResolveYFirstWins(Vertical(MovedY(s, platforms, toInt), Gravity(s.changeY), false), HitsY(s, platforms, toInt));
  }

  /** The ground flag is recomputed every frame: after a frame the player is on the ground
      exactly when it fell onto a platform or the floor fallback fired. */
  lemma StepOnGround(s: PlayerState, platforms: seq<Platform>, toInt: real -> int)
    ensures Step(s, platforms, toInt).onGround
            <==> (Gravity(s.changeY) > 0.0 && HitsY(s, platforms, toInt) != []) || FloorFires(s, platforms, toInt)
  {
    ResolveYFirstWins(Vertical(MovedY(s, platforms, toInt), Gravity(s.changeY), false), HitsY(s, platforms, toInt));
  }

  /** A player at rest, standing on a platform or on the bottom of the screen and not
      stuck inside any platform, stays exactly where it is: gravity pulls it one unit into
      what it stands on and the clamp puts it back. (The rounding of the library is only
      asked to map a whole number to itself.) */
  lemma RestingIsFixedPoint(s: PlayerState, platforms: seq<Platform>, toInt: real -> int)
    requires s.changeX == 0 && s.changeY == 0.0
    requires toInt(s.rect.y as real + 1.0) == s.rect.y + 1
    requires Hits(s.rect, platforms) == []
    requires s.rect.Bottom() == SCREEN_HEIGHT
             || (s.rect.Bottom() < SCREEN_HEIGHT && Hits(s.rect.(y := s.rect.y + 1), platforms) != [])
    ensures Step(s, platforms, toInt) == s.(onGround := true)
  {
    assert MovedX(s) == s.rect;
    var lowered := s.rect.(y := s.rect.y + 1);
    assert MovedY(s, platforms, toInt) == lowered;
    var hits := Hits(lowered, platforms);
    ResolveYFirstWins(Vertical(lowered, 1.0, false), hits);
    if hits != [] {
      var p := hits[0];
      assert p in platforms && Overlaps(lowered, p.rect);
      assert !Overlaps(s.rect, p.rect);
      assert p.rect.Top() == s.rect.Bottom();
    }
  }

  /** Two frames at rest move the player no more than one: the resting state is stable. */
  lemma RestingIsIdempotent(s: PlayerState, platforms: seq<Platform>, toInt: real -> int)
    requires s.changeX == 0 && s.changeY == 0.0
    requires toInt(s.rect.y as real + 1.0) == s.rect.y + 1
    requires Hits(s.rect, platforms) == []
    requires s.rect.Bottom() == SCREEN_HEIGHT
             || (s.rect.Bottom() < SCREEN_HEIGHT && Hits(s.rect.(y := s.rect.y + 1), platforms) != [])
    ensures Step(Step(s, platforms, toInt), platforms, toInt) == Step(s, platforms, toInt)
    ensures Step(s, platforms, toInt).rect == s.rect
  {
    RestingIsFixedPoint(s, platforms, toInt);
    RestingIsFixedPoint(s.(onGround := true), platforms, toInt);
  }

  /** The player sprite (player.py's Player). */
  class Player {
    var rect: Rect
    var changeX: int
    var changeY: real
    var onGround: bool

    function State(): PlayerState
      reads this
    {
      PlayerState(rect, changeX, changeY, onGround)
    }

    constructor (x: int, y: int)
      ensures State() == Initial(x, y)
    {
      rect := Rect(x, y, PLAYER_SIZE, PLAYER_SIZE);
      changeX := 0;
      changeY := 0.0;
      onGround := false;
    }

    /** One frame against the platforms, in their insertion order. */
    method Update(platforms: seq<Platform>, toInt: real -> int)
      modifies this
      ensures State() == Step(old(State()), platforms, toInt)
    {
      ghost var s := State();
      CalcGrav();

      rect := rect.(x := rect.x + changeX);
      var hits := Hits(rect, platforms);
      ghost var moved := rect;
      var i := 0;
      while i < |hits|
        invariant 0 <= i <= |hits|
        invariant rect == ResolveX(moved, changeX, hits[..i])
        invariant changeX == s.changeX && changeY == Gravity(s.changeY)
      {
        if changeX > 0 {
          rect := rect.WithRight(hits[i].rect.Left());
        } else if changeX < 0 {
          rect := rect.WithLeft(hits[i].rect.Right());
        }
        assert hits[..i + 1][..i] == hits[..i];
        i := i + 1;
      }
      assert hits[..i] == hits;

      rect := rect.(y := toInt(rect.y as real + changeY));
      onGround := false;
      hits := Hits(rect, platforms);
      ghost var v0 := Vertical(rect, changeY, onGround);
      i := 0;
      while i < |hits|
        invariant 0 <= i <= |hits|
        invariant Vertical(rect, changeY, onGround) == ResolveY(v0, hits[..i])
        invariant changeX == s.changeX
      {
        if changeY > 0.0 {
          rect := rect.WithBottom(hits[i].rect.Top());
          onGround := true;
        } else if changeY < 0.0 {
          rect := rect.WithTop(hits[i].rect.Bottom());
        }
        changeY := 0.0;
        assert hits[..i + 1][..i] == hits[..i];
        i := i + 1;
      }
      assert hits[..i] == hits;

      if rect.Bottom() >= SCREEN_HEIGHT {
        rect := rect.WithBottom(SCREEN_HEIGHT);
        onGround := true;
        changeY := 0.0;
      }
    }

    method CalcGrav()
      modifies this
      ensures State() == old(State()).(changeY := Gravity(old(changeY)))
    {
      if changeY == 0.0 {
        changeY := FALL_START;
      } else {
        changeY := changeY + GRAVITY;
      }
    }

    method Jump()
      modifies this
      ensures State() == Jumped(old(State()))
    {
      if onGround {
        changeY := JUMP_SPEED;
      }
    }

    method GoLeft()
      modifies this
      ensures State() == Running(old(State()), -RUN_SPEED)
    {
      changeX := -RUN_SPEED;
    }

    method GoRight()
      modifies this
      ensures State() == Running(old(State()), RUN_SPEED)
    {
      changeX := RUN_SPEED;
    }

    method Stop()
      modifies this
      ensures State() == Running(old(State()), 0)
    {
      changeX := 0;
    }
  }
}

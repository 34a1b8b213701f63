/** A platform: a static, solid rectangle that the player collides with. */
module GamePlatform {
  import opened Geometry

  /** An RGB colour; it only ever fills a sprite's image. */
  datatype Color = Color(red: int, green: int, blue: int)

  /** A platform never moves and has no per-frame update: once built it is a value. */
  datatype Platform = Platform(rect: Rect, color: Color)

  /** Builds a platform whose top-left corner is (x, y) and whose size is width by height;
      the colour is recorded for drawing only. */
  function NewPlatform(x: int, y: int, width: int, height: int, color: Color): (p: Platform)
    ensures p.rect.Left() == x && p.rect.Top() == y
    ensures p.rect.Right() == x + width && p.rect.Bottom() == y + height
    ensures p.rect.w == width && p.rect.h == height
    ensures p.color == color
  {
    Platform(Rect(x, y, width, height), color)
  }

  /** The rectangle a platform occupies, as the collision queries see it. */
  function PlatformRect(p: Platform): Rect { p.rect }

  /** Two platforms built from the same position and size occupy the same rectangle,
      whatever their colours. */
  lemma ColorDoesNotAffectGeometry(x: int, y: int, width: int, height: int, c1: Color, c2: Color)
    ensures NewPlatform(x, y, width, height, c1).rect == NewPlatform(x, y, width, height, c2).rect
    ensures PlatformRect(NewPlatform(x, y, width, height, c1)) == Rect(x, y, width, height)
  {
  }
}

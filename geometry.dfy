/** Integer rectangles as the game uses them (pygame's Rect), and the
    collision query every sprite group answers (pygame's spritecollide). */
module Geometry {

  /** A rectangle with top-left corner (x, y), width w and height h.
      Its right edge is x + w and its bottom edge is y + h. */
  datatype Rect = Rect(x: int, y: int, w: int, h: int) {

    function Left(): int { x }
    function Top(): int { y }
    function Right(): int { x + w }
    function Bottom(): int { y + h }

    /** Assigning an edge moves the rectangle; its size never changes. */
    function WithLeft(v: int): (r: Rect)
      ensures r.Left() == v && r.y == y && r.w == w && r.h == h
    {
      this.(x := v)
    }

    function WithRight(v: int): (r: Rect)
      ensures r.Right() == v && r.y == y && r.w == w && r.h == h
    {
      this.(x := v - w)
    }

    function WithTop(v: int): (r: Rect)
      ensures r.Top() == v && r.x == x && r.w == w && r.h == h
    {
      this.(y := v)
    }

    function WithBottom(v: int): (r: Rect)
      ensures r.Bottom() == v && r.x == x && r.w == w && r.h == h
    {
      this.(y := v - h)
    }
  }

  /** Strict overlap: rectangles whose edges only touch do not collide. */
  predicate Overlaps(a: Rect, b: Rect) {
    a.Left() < b.Right() && b.Left() < a.Right() && a.Top() < b.Bottom() && b.Top() < a.Bottom()
  }

  /** The members of a group (in insertion order) whose rectangle overlaps `r`,
      kept in that same order. `box` gives a member's rectangle. */
  function HitList<T(==, !new)>(r: Rect, group: seq<T>, box: T -> Rect): (hits: seq<T>)
    ensures |hits| <= |group|
    ensures forall t :: t in hits <==> t in group && Overlaps(r, box(t))
  {
    if group == [] then []
    else (if Overlaps(r, box(group[0])) then [group[0]] else []) + HitList(r, group[1..], box)
  }

  /** The first hit is the first member of the group, in insertion order, that overlaps `r`. */
  lemma {:induction false} HitListFirst<T(!new)>(r: Rect, group: seq<T>, box: T -> Rect)
    requires HitList(r, group, box) != []
    ensures exists k :: 0 <= k < |group| && group[k] == HitList(r, group, box)[0] && Overlaps(r, box(group[k]))
                        && forall j :: 0 <= j < k ==> !Overlaps(r, box(group[j]))
  {
    if !Overlaps(r, box(group[0])) {
      HitListFirst(r, group[1..], box);
      var k :| 0 <= k < |group[1..]| && group[1..][k] == HitList(r, group[1..], box)[0]
               && Overlaps(r, box(group[1..][k]))
               && forall j :: 0 <= j < k ==> !Overlaps(r, box(group[1..][j]));
      assert group[k + 1] == HitList(r, group, box)[0];
      forall j | 0 <= j < k + 1 ensures !Overlaps(r, box(group[j])) {
        if j > 0 { assert group[j] == group[1..][j - 1]; }
      }
    } else {
      assert group[0] == HitList(r, group, box)[0];
    }
  }

  /** The last hit is the last member of the group, in insertion order, that overlaps `r`. */
  lemma {:induction false} HitListLast<T(!new)>(r: Rect, group: seq<T>, box: T -> Rect)
    requires HitList(r, group, box) != []
    ensures var hits := HitList(r, group, box);
            exists k :: 0 <= k < |group| && group[k] == hits[|hits| - 1] && Overlaps(r, box(group[k]))
                        && forall j :: k < j < |group| ==> !Overlaps(r, box(group[j]))
  {
    var hits := HitList(r, group, box);
    var rest := HitList(r, group[1..], box);
    if rest != [] {
      HitListLast(r, group[1..], box);
      var k :| 0 <= k < |group[1..]| && group[1..][k] == rest[|rest| - 1]
               && Overlaps(r, box(group[1..][k]))
               && forall j :: k < j < |group[1..]| ==> !Overlaps(r, box(group[1..][j]));
      assert hits[|hits| - 1] == rest[|rest| - 1];
      forall j | k + 1 < j < |group| ensures !Overlaps(r, box(group[j])) {
        assert group[j] == group[1..][j - 1];
      }
      assert group[k + 1] == hits[|hits| - 1];
    } else {
      assert hits == [group[0]];
      forall j | 0 < j < |group| ensures !Overlaps(r, box(group[j])) {
        assert group[j] in group[1..];
      }
    }
  }
}

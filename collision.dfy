/** Player/platform contact (Physics/Collision.h, Physics/Collision.cpp): the
    overlap of two axis-aligned boxes, and the push-out that resolves it along
    one axis, with a landing that keeps a sliver of overlap so that contact is
    still seen on the next frame. */
module Collision {
  import opened Geometry
  import opened Kinematics
  import Players
  import Platforms

  /** How far a landing leaves the player's bottom edge inside the platform. */
  const LANDING_OVERLAP: real := 0.1

  function Max(a: real, b: real): real { if a >= b then a else b }
  function Min(a: real, b: real): real { if a <= b then a else b }

  /** Two boxes overlap when each starts before the other ends, on both axes,
      and neither is empty: boxes that only touch do not overlap. */
  predicate Overlaps(a: Rect, b: Rect) {
    && a.left < b.Right() && b.left < a.Right() && a.top < b.Bottom() && b.top < a.Bottom()
    && a.width > 0.0 && b.width > 0.0 && a.height > 0.0 && b.height > 0.0
  }

  /** getIntersection (FloatRect::findIntersection): the common part of two
      boxes, present only when it has positive area. */
  function Intersection(a: Rect, b: Rect): (r: Option<Rect>)
    ensures r.Some? <==> Overlaps(a, b)
    ensures r.Some? ==> a.Encloses(r.value) && b.Encloses(r.value)
    ensures r.Some? ==> r.value.width > 0.0 && r.value.height > 0.0
  {
    var left, top := Max(a.left, b.left), Max(a.top, b.top);
    var right, bottom := Min(a.Right(), b.Right()), Min(a.Bottom(), b.Bottom());
    if left < right && top < bottom then Some(Rect(left, top, right - left, bottom - top)) else None
  }

  /** The intersection is exactly the common part: a point is strictly inside
      both boxes if and only if it is strictly inside their intersection. */
  lemma IntersectionIsCommonPart(a: Rect, b: Rect, p: Vec2)
    ensures (a.HasInside(p) && b.HasInside(p)) <==>
            (Intersection(a, b).Some? && Intersection(a, b).value.HasInside(p))
  {
  }

  /** Which way a contact is resolved. */
  datatype Contact = NoContact | PushLeft | PushRight | Landing | HeadBump

  /** The classification handleCollision makes: a taller-than-wide overlap is a
      side hit (direction from the left edges), anything else a vertical hit
      (landing if the player's top edge is above the platform's). */
  function Classify(box: Rect, platform: Rect): (k: Contact)
    ensures k == NoContact <==> !Overlaps(box, platform)
    ensures (k == PushLeft || k == PushRight) ==>
              Intersection(box, platform).value.width < Intersection(box, platform).value.height
    ensures (k == Landing || k == HeadBump) ==>
              Intersection(box, platform).value.width >= Intersection(box, platform).value.height
    ensures k == PushLeft ==> box.left < platform.left
    ensures k == PushRight ==> box.left >= platform.left
    ensures k == Landing ==> box.top < platform.top
    ensures k == HeadBump ==> box.top >= platform.top
  {
    match Intersection(box, platform)
    case None => NoContact
    case Some(o) =>
      if o.width < o.height then
        if box.left < platform.left then PushLeft else PushRight
      else
        if box.top < platform.top then Landing else HeadBump
  }

  /** handleCollision on values: the body of a player whose box is `w` x `h`
      after contact with `platform`. */
  function Resolve(b: Body, w: real, h: real, platform: Rect): (r: Body)
    ensures var box := PlayerBox(b.position, w, h);
            var k := Classify(box, platform);
            var o := Intersection(box, platform);
            && (k == NoContact ==> r == b)
            && (k == PushLeft ==> r == b.(position := Vec2(b.position.x - o.value.width, b.position.y),
                                          velocity := Vec2(0.0, b.velocity.y)))
            && (k == PushRight ==> r == b.(position := Vec2(b.position.x + o.value.width, b.position.y),
                                           velocity := Vec2(0.0, b.velocity.y)))
            && (k == Landing ==> r == Body(Vec2(b.position.x, b.position.y - o.value.height + LANDING_OVERLAP),
                                           Vec2(b.velocity.x, 0.0), true))
            && (k == HeadBump ==> r == b.(position := Vec2(b.position.x, b.position.y + o.value.height),
                                          velocity := Vec2(b.velocity.x, 0.0)))
  {
    var box := PlayerBox(b.position, w, h);
    match Intersection(box, platform)
    case None => b
    case Some(o) =>
      if o.width < o.height then
        var x := if box.left < platform.left then b.position.x - o.width else b.position.x + o.width;
        b.(position := Vec2(x, b.position.y), velocity := b.velocity.(x := 0.0))
      else if box.top < platform.top then
        b.(position := b.position.(y := b.position.y - o.height + LANDING_OVERLAP),
           velocity := b.velocity.(y := 0.0), onGround := true)
      else
        b.(position := b.position.(y := b.position.y + o.height), velocity := b.velocity.(y := 0.0))
  }

  /** A side hit moves the player along x only, by the overlap width, away from
      the platform's side, and stops horizontal motion; vertical motion and the
      ground flag are kept. */
  lemma SideHit(b: Body, w: real, h: real, platform: Rect)
    requires Overlaps(PlayerBox(b.position, w, h), platform)
    requires var o := Intersection(PlayerBox(b.position, w, h), platform).value; o.width < o.height
    ensures var r := Resolve(b, w, h, platform);
            var o := Intersection(PlayerBox(b.position, w, h), platform).value;
            && r.position.y == b.position.y && r.velocity.x == 0.0
            && r.velocity.y == b.velocity.y && r.onGround == b.onGround
            && (r.position.x - b.position.x == o.width || b.position.x - r.position.x == o.width)
            && (r.position.x < b.position.x <==> b.position.x < platform.left)
  {
  }

  /** An exact tie between overlap width and height is a vertical hit. */
  lemma TieIsVertical(b: Body, w: real, h: real, platform: Rect)
    requires Overlaps(PlayerBox(b.position, w, h), platform)
    requires var o := Intersection(PlayerBox(b.position, w, h), platform).value; o.width == o.height
    ensures var k := Classify(PlayerBox(b.position, w, h), platform); k == Landing || k == HeadBump
    ensures Resolve(b, w, h, platform).velocity.y == 0.0
    ensures Resolve(b, w, h, platform).position.x == b.position.x
  {
  }

  /** A landing with the player's bottom edge inside the platform leaves that
      edge exactly LANDING_OVERLAP below the platform's top, so the boxes
      still overlap and the next call sees a contact again. (Near a platform
      edge that contact can be classified as a side hit.) */
  lemma LandingKeepsContact(b: Body, w: real, h: real, platform: Rect)
    requires Classify(PlayerBox(b.position, w, h), platform) == Landing
    requires b.position.y + h <= platform.Bottom()
    requires h > LANDING_OVERLAP && platform.height > LANDING_OVERLAP
    ensures var r := Resolve(b, w, h, platform);
            && r.onGround && r.velocity.y == 0.0 && r.position.x == b.position.x
            && r.position.y + h == platform.top + LANDING_OVERLAP
            && Overlaps(PlayerBox(r.position, w, h), platform)
            && Intersection(PlayerBox(r.position, w, h), platform).value.height == LANDING_OVERLAP
  {
    var box := PlayerBox(b.position, w, h);
    var o := Intersection(box, platform).value;
    assert o.height == b.position.y + h - platform.top;
  }

  /** Boxes that merely touch (the player's bottom edge on the platform's top
      edge) do not collide: nothing changes. */
  lemma TouchingIsNoContact(b: Body, w: real, h: real, platform: Rect)
    requires b.position.y + h == platform.top
    ensures Resolve(b, w, h, platform) == b
  {
  }

  /** A side hit of a player whose leading edge is inside the platform (its
      right edge when pushed left, its left edge when pushed right) leaves the
      two boxes just touching: after the push they no longer overlap. */
  lemma SideHitSeparates(b: Body, w: real, h: real, platform: Rect)
    requires Classify(PlayerBox(b.position, w, h), platform) == PushLeft ==> b.position.x + w <= platform.Right()
    requires Classify(PlayerBox(b.position, w, h), platform) == PushRight ==> platform.Right() <= b.position.x + w
    requires Classify(PlayerBox(b.position, w, h), platform) in {PushLeft, PushRight}
    ensures !Overlaps(PlayerBox(Resolve(b, w, h, platform).position, w, h), platform)
  {
  }

  /** A head bump against a platform whose bottom edge is inside the player's
      box leaves the player's top edge on the platform's bottom edge. */
  lemma HeadBumpSeparates(b: Body, w: real, h: real, platform: Rect)
    requires Classify(PlayerBox(b.position, w, h), platform) == HeadBump
    requires platform.Bottom() <= b.position.y + h
    ensures Resolve(b, w, h, platform).position.y == platform.Bottom()
    ensures !Overlaps(PlayerBox(Resolve(b, w, h, platform).position, w, h), platform)
  {
  }

  /** handleCollision(player, platform): corrects the player's position,
      velocity and ground flag; nothing else about the player changes. */
  method HandleCollision(player: Players.Player, platform: Platforms.Platform)
    modifies player
    ensures player.State() == old(player.State()).(body := Resolve(
              old(player.State().body), old(player.textureRect.width) as real,
              old(player.textureRect.height) as real, platform.shape))
  {
    var intersection := Intersection(player.Bounds(), platform.shape);
    if intersection.None? {
      return;
    }
    var overlap := intersection.value;
    var playerPos := player.GetPosition();
    var playerBounds := player.Bounds();
    var platformBounds := platform.shape;
    if overlap.width < overlap.height {
      if playerBounds.left < platformBounds.left {
        player.SetPosition(Vec2(playerPos.x - overlap.width, playerPos.y));
      } else {
        player.SetPosition(Vec2(playerPos.x + overlap.width, playerPos.y));
      }
      player.velocity := player.velocity.(x := 0.0);
    } else {
      if playerBounds.top < platformBounds.top {
        player.SetPosition(Vec2(playerPos.x, playerPos.y - overlap.height + LANDING_OVERLAP));
        player.velocity := player.velocity.(y := 0.0);
        player.onGround := true;
      } else {
        player.SetPosition(Vec2(playerPos.x, playerPos.y + overlap.height));
        player.velocity := player.velocity.(y := 0.0);
      }
    }
  }
}

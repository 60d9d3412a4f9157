/** Plain values shared by every part of the game core: 2D vectors, the float
    rectangle used for collision boxes, the integer rectangle that selects a
    frame of a texture atlas, and the abstract outcome of loading a texture. */
module Geometry {

  datatype Option<T> = None | Some(value: T)

  /** A 2D vector of world coordinates, velocities or sizes (sf::Vector2f). */
  datatype Vec2 = Vec2(x: real, y: real)

  /** A float rectangle given by its top-left corner and its size (sf::FloatRect). */
  datatype Rect = Rect(left: real, top: real, width: real, height: real) {
    function Right(): real { left + width }
    function Bottom(): real { top + height }

    /** `inner` lies inside this rectangle. */
    predicate Encloses(inner: Rect) {
      left <= inner.left && inner.Right() <= Right() &&
      top <= inner.top && inner.Bottom() <= Bottom()
    }

    /** The point `p` lies strictly inside this rectangle. */
    predicate HasInside(p: Vec2) {
      left < p.x < Right() && top < p.y < Bottom()
    }
  }

  /** The collision box of a sprite at `position` whose texture rectangle is
      `w` x `h` (default origin, unit scale, no rotation). */
  function PlayerBox(position: Vec2, w: real, h: real): Rect {
    Rect(position.x, position.y, w, h)
  }

  /** An integer rectangle of texture pixels (sf::IntRect); every value the
      game computes for it is non-negative. */
  datatype TexRect = TexRect(left: nat, top: nat, width: nat, height: nat)

  /** What a texture load reports: failure, or the pixel size of the decoded image.
      The image decoder itself is outside the model. */
  datatype LoadResult = LoadFailed | Loaded(width: nat, height: nat)
}

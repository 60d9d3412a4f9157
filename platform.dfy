/** Static level geometry (Platform/Platform.h, Platform/Platform.cpp): solid
    rectangles that never change once made. */
module Platforms {
  import opened Geometry

  /** A platform is its rectangle shape; the shape's collision box is its
      position and size (no outline, origin, rotation or scale are used). */
  datatype Platform = Platform(shape: Rect)

  /** Platform(x, y, width, height, color): a rectangle with top-left corner
      (x, y) and the given size. The fill colour is drawing only. */
  function NewPlatform(x: real, y: real, width: real, height: real): (p: Platform)
    ensures p.shape.left == x && p.shape.top == y
    ensures p.shape.Right() == x + width && p.shape.Bottom() == y + height
  {
    Platform(Rect(x, y, width, height))
  }

  /** createPlatforms(platforms): appends the ground and three ledges, in that
      order, to the caller's list. The list is passed in and handed back. */
  method CreatePlatforms(platforms: seq<Platform>) returns (result: seq<Platform>)
    ensures |result| == |platforms| + 4 && result[..|platforms|] == platforms
    ensures result[|platforms|].shape == Rect(0.0, 550.0, 800.0, 50.0)
    ensures forall i :: |platforms| < i < |result| ==>
              result[i].shape.width == 150.0 && result[i].shape.height == 20.0
    ensures result[|platforms| + 1].shape.left == 200.0 && result[|platforms| + 1].shape.top == 450.0
    ensures result[|platforms| + 2].shape.left == 400.0 && result[|platforms| + 2].shape.top == 350.0
    ensures result[|platforms| + 3].shape.left == 600.0 && result[|platforms| + 3].shape.top == 250.0
    ensures forall i, j :: |platforms| < i < j < |result| ==>
              result[i].shape.left < result[j].shape.left && result[i].shape.top > result[j].shape.top
    ensures forall i :: |platforms| <= i < |result| ==>
              result[i].shape.width > 0.0 && result[i].shape.height > 0.0
  {
    result := platforms;
    result := result + [NewPlatform(0.0, 550.0, 800.0, 50.0)];    // ground
    result := result + [NewPlatform(200.0, 450.0, 150.0, 20.0)];
    result := result + [NewPlatform(400.0, 350.0, 150.0, 20.0)];
    result := result + [NewPlatform(600.0, 250.0, 150.0, 20.0)];
  }
}

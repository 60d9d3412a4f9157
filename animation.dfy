/** A sprite-sheet animation clip (Animation/Animation.h, Animation/Animation.cpp):
    a cursor over the frames of a texture atlas, advanced by elapsed time, with
    looping or clamping at the end, and the texture rectangle that shows the
    current frame. The clip's sprite is reduced to what the game reads back:
    its texture rectangle and its position. */
module Animations {
  import opened Geometry
  import opened Timing
  import Atlas

  /** The abstract value of an `Animation` object. `textureLoaded` also stands
      for "the sprite exists": the source creates both at the same point. */
  datatype Clip = Clip(
    frameWidth: nat, frameHeight: nat,
    frameCount: nat, currentFrame: nat,
    fps: real, frameTime: real,
    isPlaying: bool, loop: bool,
    textureLoaded: bool, atlasWidth: nat, atlasHeight: nat,
    textureRect: TexRect, position: Vec2)

  /** The clip invariant: the cursor stays on an existing frame, and a loaded
      clip has a non-zero frame width (the rectangle computation divides by it
      before any guard). */
  predicate Wf(c: Clip) {
    && (c.frameCount > 0 ==> c.currentFrame < c.frameCount)
    && (c.textureLoaded ==> c.frameWidth > 0)
  }

  /** The state the constructor establishes: no frames, 5 fps, playing, looping,
      nothing loaded. The frame size is left at sf::Vector2u's default (0, 0). */
  function Initial(): (c: Clip)
    ensures Wf(c) && !c.textureLoaded && c.frameCount == 0
  {
    Clip(0, 0, 0, 0, 5.0, 0.0, true, true, false, 0, 0, TexRect(0, 0, 0, 0), Vec2(0.0, 0.0))
  }

  /** updateTextureRect: select the atlas cell of the current frame, unless
      there is no sprite yet or not even one frame fits in an atlas row. */
  function RefreshRect(c: Clip): (r: Clip)
    requires c.textureLoaded ==> c.frameWidth > 0
    ensures r.(textureRect := c.textureRect) == c
    ensures r.textureRect != c.textureRect ==> c.textureLoaded && c.atlasWidth >= c.frameWidth
    ensures c.textureLoaded && c.atlasWidth >= c.frameWidth ==>
              && r.textureRect.width == c.frameWidth && r.textureRect.height == c.frameHeight
              && r.textureRect.left % c.frameWidth == 0
              && r.textureRect.left / c.frameWidth == c.currentFrame % Atlas.FramesPerRow(c.atlasWidth, c.frameWidth)
              && r.textureRect.left + r.textureRect.width <= c.atlasWidth
              && (c.frameHeight == 0 ==> r.textureRect.top == 0)
              && (c.frameHeight > 0 ==>
                    && r.textureRect.top % c.frameHeight == 0
                    && Atlas.FrameAt(r.textureRect, c.frameWidth, c.frameHeight, c.atlasWidth) == c.currentFrame)
  {
    if !c.textureLoaded then c
    else if Atlas.FramesPerRow(c.atlasWidth, c.frameWidth) == 0 then c
    else
      Atlas.GridRectRoundTrip(c.currentFrame, c.frameWidth, c.frameHeight, c.atlasWidth);
      c.(textureRect := Atlas.GridRect(c.currentFrame, c.frameWidth, c.frameHeight, c.atlasWidth))
  }

  /** loadFromFile: on failure nothing changes; on success the geometry and rate
      are stored, the cursor and accumulator reset, and a fresh sprite is made
      (position (0, 0), rectangle the whole texture) before the rectangle of
      frame 0 is selected. */
  function Load(c: Clip, file: LoadResult, frameWidth: nat, frameHeight: nat, frameCount: nat, fps: real): (r: Clip)
    requires Wf(c)
    requires file.Loaded? ==> frameWidth > 0
    ensures Wf(r)
    ensures file.LoadFailed? ==> r == c
    ensures file.Loaded? ==>
              && r.frameWidth == frameWidth && r.frameHeight == frameHeight
              && r.frameCount == frameCount && r.fps == fps
              && r.currentFrame == 0 && r.frameTime == 0.0 && r.textureLoaded
              && r.isPlaying == c.isPlaying && r.loop == c.loop
              && r.position == Vec2(0.0, 0.0)
              && r.atlasWidth == file.width && r.atlasHeight == file.height
              && r.textureRect == (if file.width >= frameWidth then TexRect(0, 0, frameWidth, frameHeight)
                                   else TexRect(0, 0, file.width, file.height))
  {
    match file
    case LoadFailed => c
    case Loaded(w, h) =>
      RefreshRect(c.(frameWidth := frameWidth, frameHeight := frameHeight,
                     frameCount := frameCount, fps := fps,
                     currentFrame := 0, frameTime := 0.0,
                     textureLoaded := true, atlasWidth := w, atlasHeight := h,
                     textureRect := TexRect(0, 0, w, h), position := Vec2(0.0, 0.0)))
  }

  /** The clip is inert: `update` returns at once. */
  predicate Inert(c: Clip) {
    !c.isPlaying || c.frameCount == 0 || !c.textureLoaded
  }

  /** update(deltaTime): accumulate time; once a whole period `1/fps` has built
      up, take it off (keeping the remainder) and step ONE frame, wrapping to 0
      on a looping clip or stopping on the last frame otherwise. */
  function Advance(c: Clip, dt: real): (r: Clip)
    requires Wf(c)
    ensures Wf(r)
    ensures Inert(c) ==> r == c
    ensures !Inert(c) ==>
              var t := c.frameTime + dt;
              var due := Due(t, 1.0, c.fps);
              && r.frameTime == (if due then t - 1.0 / c.fps else t)
              && (c.loop ==> r.currentFrame == (c.currentFrame + (if due then 1 else 0)) % c.frameCount && r.isPlaying)
              && (!c.loop ==> r.currentFrame == Min(c.currentFrame + (if due then 1 else 0), c.frameCount - 1)
                              && r.isPlaying == (c.currentFrame + (if due then 1 else 0) < c.frameCount))
              && (!due ==> r.textureRect == c.textureRect)
              && (due ==> r == RefreshRect(r.(textureRect := c.textureRect)))
    ensures r.(currentFrame := c.currentFrame, frameTime := c.frameTime,
               isPlaying := c.isPlaying, textureRect := c.textureRect) == c
  {
    if Inert(c) then c
    else
      var t := c.frameTime + dt;
      if !Due(t, 1.0, c.fps) then
        Atlas.DivModUnique(c.currentFrame, c.frameCount, 0, c.currentFrame);
        c.(frameTime := t)
      else
        var next := c.currentFrame + 1;
        var stepped :=
          if next < c.frameCount then
            Atlas.DivModUnique(next, c.frameCount, 0, next);
            c.(frameTime := t - 1.0 / c.fps, currentFrame := next)
          else if c.loop then
            Atlas.DivModUnique(next, c.frameCount, 1, 0);
            c.(frameTime := t - 1.0 / c.fps, currentFrame := 0)
          else c.(frameTime := t - 1.0 / c.fps, currentFrame := c.frameCount - 1, isPlaying := false);
        RefreshRect(stepped)
  }

  function Min(a: int, b: int): int { if a <= b then a else b }

  /** setFrame(n): jump to frame `n` if it exists; otherwise nothing changes. */
  function WithFrame(c: Clip, n: nat): (r: Clip)
    requires Wf(c)
    ensures Wf(r)
    ensures n >= c.frameCount ==> r == c
    ensures n < c.frameCount ==> r.currentFrame == n && r.(currentFrame := c.currentFrame, textureRect := c.textureRect) == c
    ensures n < c.frameCount ==> r == RefreshRect(r.(textureRect := c.textureRect))
  {
    if n < c.frameCount then RefreshRect(c.(currentFrame := n)) else c
  }

  /** stop(): not playing, back to frame 0 with an empty accumulator. */
  function Stopped(c: Clip): (r: Clip)
    requires Wf(c)
    ensures Wf(r)
    ensures !r.isPlaying && r.currentFrame == 0 && r.frameTime == 0.0
    ensures r.(isPlaying := c.isPlaying, currentFrame := c.currentFrame,
               frameTime := c.frameTime, textureRect := c.textureRect) == c
    ensures r == RefreshRect(r.(textureRect := c.textureRect))
  {
    RefreshRect(c.(isPlaying := false, currentFrame := 0, frameTime := 0.0))
  }

  /** setPosition: moves the sprite, if there is one. */
  function Place(c: Clip, p: Vec2): (r: Clip)
    ensures c.textureLoaded ==> r.position == p
    ensures r.(position := c.position) == c
  {
    if c.textureLoaded then c.(position := p) else c
  }

  /** Calling stop() a second time changes nothing. */
  lemma StopIdempotent(c: Clip)
    requires Wf(c)
    ensures Stopped(Stopped(c)) == Stopped(c)
  {
  }

  /** `n` calls of update, each with the same `dt`. */
  function AdvanceTimes(c: Clip, dt: real, n: nat): (r: Clip)
    requires Wf(c)
    ensures Wf(r)
  {
    if n == 0 then c else Advance(AdvanceTimes(c, dt, n - 1), dt)
  }

  /** A playing, looping clip advanced `n` times by exactly one period moves
      `n` frames forward modulo the frame count, and its accumulator is back to
      zero after every call. */
  lemma {:induction false} LoopingAdvance(c: Clip, n: nat)
    requires Wf(c) && c.isPlaying && c.loop && c.textureLoaded && c.frameCount > 0
    requires c.fps > 0.0 && c.frameTime == 0.0
    ensures var r := AdvanceTimes(c, 1.0 / c.fps, n);
            r.currentFrame == (c.currentFrame + n) % c.frameCount && r.frameTime == 0.0 && r.isPlaying
            && r.fps == c.fps && r.loop && r.textureLoaded && r.frameCount == c.frameCount
  {
    if n > 0 {
      LoopingAdvance(c, n - 1);
      var p := AdvanceTimes(c, 1.0 / c.fps, n - 1);
      assert Due(p.frameTime + 1.0 / c.fps, 1.0, p.fps);
      ModSucc(c.currentFrame + n - 1, c.frameCount);
    }
  }

  lemma ModSucc(a: nat, m: nat)
    requires m > 0
    ensures (a % m + 1) % m == (a + 1) % m
  {
    var q := a / m;
    assert a == q * m + a % m;
    if a % m + 1 < m {
      Atlas.DivModUnique(a + 1, m, q, a % m + 1);
    } else {
      Atlas.DivModUnique(a + 1, m, q + 1, 0);
    }
  }

  /** A playing clip that does not loop, advanced `n` times by exactly one
      period, moves `n` frames forward but never past the last frame; it stops
      playing exactly when it has tried to move past the last frame, and from
      then on further calls leave it where it is. */
  lemma {:induction false} OneShotAdvance(c: Clip, n: nat)
    requires Wf(c) && c.isPlaying && !c.loop && c.textureLoaded && c.frameCount > 0
    requires c.fps > 0.0 && c.frameTime == 0.0
    ensures var r := AdvanceTimes(c, 1.0 / c.fps, n);
            r.currentFrame == Min(c.currentFrame + n, c.frameCount - 1)
            && r.isPlaying == (c.currentFrame + n < c.frameCount)
            && (r.isPlaying ==> r.frameTime == 0.0)
            && r.fps == c.fps && !r.loop && r.textureLoaded && r.frameCount == c.frameCount
  {
    if n > 0 {
      OneShotAdvance(c, n - 1);
      var p := AdvanceTimes(c, 1.0 / c.fps, n - 1);
      if p.isPlaying {
        assert Due(p.frameTime + 1.0 / c.fps, 1.0, p.fps);
      }
    }
  }

  /** The source class. Each method is stated against the `Clip` function of
      the same name, applied to the value the object held before the call. */
  class Animation {
    var frameWidth: nat
    var frameHeight: nat
    var frameCount: nat
    var currentFrame: nat
    var fps: real
    var frameTime: real
    var isPlaying: bool
    var loop: bool
    var textureLoaded: bool
    var atlasWidth: nat
    var atlasHeight: nat
    var textureRect: TexRect
    var position: Vec2

    function State(): Clip
      reads this
    {
      Clip(frameWidth, frameHeight, frameCount, currentFrame, fps, frameTime,
           isPlaying, loop, textureLoaded, atlasWidth, atlasHeight, textureRect, position)
    }

    ghost predicate Valid()
      reads this
    {
      Wf(State())
    }

    constructor ()
      ensures State() == Initial() && Valid()
    {
      frameWidth, frameHeight := 0, 0;
      frameCount, currentFrame := 0, 0;
      fps, frameTime := 5.0, 0.0;
      isPlaying, loop := true, true;
      textureLoaded := false;
      atlasWidth, atlasHeight := 0, 0;
      textureRect := TexRect(0, 0, 0, 0);
      position := Vec2(0.0, 0.0);
    }

    method LoadFromFile(file: LoadResult, size: (nat, nat), count: nat, rate: real := 10.0) returns (ok: bool)
      requires Valid()
      requires file.Loaded? ==> size.0 > 0
      modifies this
      ensures Valid()
      ensures ok == file.Loaded?
      ensures State() == Load(old(State()), file, size.0, size.1, count, rate)
    {
      if file.LoadFailed? {
        return false;
      }
      frameWidth, frameHeight := size.0, size.1;
      frameCount := count;
      fps := rate;
      currentFrame := 0;
      frameTime := 0.0;
      atlasWidth, atlasHeight := file.width, file.height;
      textureRect := TexRect(0, 0, file.width, file.height);
      position := Vec2(0.0, 0.0);
      textureLoaded := true;
      assert State() == old(State()).(frameWidth := size.0, frameHeight := size.1,
                                      frameCount := count, fps := rate,
                                      currentFrame := 0, frameTime := 0.0,
                                      textureLoaded := true, atlasWidth := file.width, atlasHeight := file.height,
                                      textureRect := TexRect(0, 0, file.width, file.height), position := Vec2(0.0, 0.0));
      UpdateTextureRect();
      ok := true;
    }

    method Update(dt: real)
      requires Valid()
      modifies this
      ensures Valid()
      ensures State() == Advance(old(State()), dt)
    {
      if !isPlaying || frameCount == 0 || !textureLoaded {
        return;
      }
      frameTime := frameTime + dt;
      if fps != 0.0 && frameTime >= 1.0 / fps {
        frameTime := frameTime - 1.0 / fps;
        currentFrame := currentFrame + 1;
        if currentFrame >= frameCount {
          if loop {
            currentFrame := 0;
          } else {
            currentFrame := frameCount - 1;
            isPlaying := false;
          }
        }
        UpdateTextureRect();
      }
    }

    method SetFrame(frame: nat)
      requires Valid()
      modifies this
      ensures Valid()
      ensures State() == WithFrame(old(State()), frame)
    {
      if frame < frameCount {
        currentFrame := frame;
        UpdateTextureRect();
      }
    }

    method Play()
      modifies this
      ensures State() == old(State()).(isPlaying := true)
    {
      isPlaying := true;
    }

    method Pause()
      modifies this
      ensures State() == old(State()).(isPlaying := false)
    {
      isPlaying := false;
    }

    method Stop()
      requires Valid()
      modifies this
      ensures Valid()
      ensures State() == Stopped(old(State()))
    {
      isPlaying := false;
      currentFrame := 0;
      frameTime := 0.0;
      UpdateTextureRect();
    }

    method SetFps(speed: real)
      modifies this
      ensures State() == old(State()).(fps := speed)
    {
      fps := speed;
    }

    method SetLoop(shouldLoop: bool)
      modifies this
      ensures State() == old(State()).(loop := shouldLoop)
    {
      loop := shouldLoop;
    }

    method SetPosition(p: Vec2)
      modifies this
      ensures State() == Place(old(State()), p)
    {
      if textureLoaded {
        position := p;
      }
    }

    method GetPosition() returns (p: Vec2)
      ensures p == if textureLoaded then position else Vec2(0.0, 0.0)
    {
      if textureLoaded {
        return position;
      }
      return Vec2(0.0, 0.0);
    }

    method UpdateTextureRect()
      requires textureLoaded ==> frameWidth > 0
      modifies this
      ensures State() == RefreshRect(old(State()))
    {
      if !textureLoaded {
        return;
      }
      var perRow := atlasWidth / frameWidth;
      if perRow == 0 {
        return;
      }
      var row := currentFrame / perRow;
      var col := currentFrame % perRow;
      textureRect := TexRect(col * frameWidth, row * frameHeight, frameWidth, frameHeight);
    }
  }
}

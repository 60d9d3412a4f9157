/** The player (Player/Player.h, Player/Player.cpp): a body under gravity with
    its own sprite-sheet frame cursor, whose period `0.5 / animationSpeed` is
    half that of the clip in Animation.cpp at the same rate, and which always
    wraps. */
module Players {
  import opened Geometry
  import opened Timing
  import opened Kinematics
  import Atlas

  /** Jump take-off velocity (upward, so negative on screen). */
  const JUMP_VELOCITY: real := -400.0

  /** The abstract value of a `Player` object. The sprite is reduced to its
      position (kept in `body`) and its texture rectangle; the texture to its
      pixel size (0 x 0 until a load succeeds). */
  datatype PlayerState = PlayerState(
    body: Body,
    frameWidth: nat, frameHeight: nat,
    frameCount: nat, currentFrame: nat,
    animationSpeed: real, frameTime: real,
    atlasWidth: nat, atlasHeight: nat,
    textureRect: TexRect)
  {
    /** The collision box: sprite position and texture-rectangle size (default
        origin, unit scale, no rotation). */
    function Bounds(): Rect {
      PlayerBox(body.position, textureRect.width as real, textureRect.height as real)
    }
  }

  /** The cursor stays on an existing frame (frame 0 also when there are none). */
  predicate Wf(p: PlayerState) {
    p.currentFrame < p.frameCount || p.currentFrame == 0
  }

  /** The constructor: at (x, y), at rest, airborne, 36 x 36 frames, 4 frames,
      speed 10, empty texture and so an empty texture rectangle. */
  function Initial(x: real, y: real): (p: PlayerState)
    ensures Wf(p) && p.body.position == Vec2(x, y) && !p.body.onGround
  {
    PlayerState(Body(Vec2(x, y), Vec2(0.0, 0.0), false), 36, 36, 4, 0, 10.0, 0.0, 0, 0, TexRect(0, 0, 0, 0))
  }

  /** loadFromFile: on failure nothing changes; on success the animation settings
      are stored, the cursor and accumulator reset, the sprite keeps its
      position and shows the top-left frame. */
  function Load(p: PlayerState, file: LoadResult, frameWidth: nat, frameHeight: nat, frameCount: nat, speed: real): (r: PlayerState)
    requires Wf(p)
    ensures Wf(r)
    ensures file.LoadFailed? ==> r == p
    ensures file.Loaded? ==>
              && r.currentFrame == 0 && r.frameTime == 0.0
              && r.frameWidth == frameWidth && r.frameHeight == frameHeight
              && r.frameCount == frameCount && r.animationSpeed == speed
              && r.body == p.body
              && r.textureRect == TexRect(0, 0, frameWidth, frameHeight)
              && r.Bounds() == Rect(p.body.position.x, p.body.position.y, frameWidth as real, frameHeight as real)
              && r.atlasWidth == file.width && r.atlasHeight == file.height
  {
    match file
    case LoadFailed => p
    case Loaded(w, h) =>
      p.(frameWidth := frameWidth, frameHeight := frameHeight, frameCount := frameCount,
         animationSpeed := speed, currentFrame := 0, frameTime := 0.0,
         atlasWidth := w, atlasHeight := h, textureRect := TexRect(0, 0, frameWidth, frameHeight))
  }

  /** A frame step of `update(dt)` is due. */
  predicate FrameDue(p: PlayerState, dt: real) {
    p.frameCount > 1 && Due(p.frameTime + dt, 0.5, p.animationSpeed)
  }

  /** What `update` demands: a due frame step divides by the frame width and
      by the number of frames per atlas row, and the source has no guard. */
  predicate CanUpdate(p: PlayerState, dt: real) {
    FrameDue(p, dt) ==> p.frameWidth > 0 && p.atlasWidth / p.frameWidth > 0
  }

  /** update(dt): integrate, advance the frame cursor by at most one (modulo the
      frame count, keeping the remainder of the accumulator), then clear the
      ground flag for the collision pass to set again. */
  function Step(p: PlayerState, dt: real): (r: PlayerState)
    requires Wf(p) && CanUpdate(p, dt)
    ensures Wf(r)
    ensures r.body == Integrate(p.body, dt).(onGround := false)
    ensures p.frameCount <= 1 ==>
              r.currentFrame == p.currentFrame && r.frameTime == p.frameTime && r.textureRect == p.textureRect
    ensures FrameDue(p, dt) ==>
              r.textureRect.left / p.frameWidth == r.currentFrame % Atlas.FramesPerRow(p.atlasWidth, p.frameWidth)
    ensures p.frameCount > 1 && !FrameDue(p, dt) ==>
              r.currentFrame == p.currentFrame && r.frameTime == p.frameTime + dt && r.textureRect == p.textureRect
    ensures FrameDue(p, dt) ==>
              && r.currentFrame == (p.currentFrame + 1) % p.frameCount
              && r.frameTime == p.frameTime + dt - 0.5 / p.animationSpeed
              && r.textureRect.width == p.frameWidth && r.textureRect.height == p.frameHeight
              && r.textureRect.left % p.frameWidth == 0
              && r.textureRect.left + r.textureRect.width <= p.atlasWidth
              && (p.frameHeight == 0 ==> r.textureRect.top == 0)
              && (p.frameHeight > 0 ==>
                    && r.textureRect.top % p.frameHeight == 0
                    && Atlas.FrameAt(r.textureRect, p.frameWidth, p.frameHeight, p.atlasWidth) == r.currentFrame)
    ensures r.(body := p.body, currentFrame := p.currentFrame, frameTime := p.frameTime,
               textureRect := p.textureRect) == p
  {
    var moved := p.(body := Integrate(p.body, dt));
    var animated :=
      if p.frameCount > 1 then
        var t := p.frameTime + dt;
        if Due(t, 0.5, p.animationSpeed) then
          var f := (p.currentFrame + 1) % p.frameCount;
          Atlas.GridRectRoundTrip(f, p.frameWidth, p.frameHeight, p.atlasWidth);
          moved.(frameTime := t - 0.5 / p.animationSpeed, currentFrame := f,
                 textureRect := Atlas.GridRect(f, p.frameWidth, p.frameHeight, p.atlasWidth))
        else moved.(frameTime := t)
      else moved;
    animated.(body := animated.body.(onGround := false))
  }

  /** A player that was never loaded cannot be updated safely: after 0.05 s
      its frame step is due, and its empty texture gives zero frames per row,
      which the step then divides by. */
  lemma UpdateBeforeLoadDividesByZero(x: real, y: real)
    ensures FrameDue(Initial(x, y), 0.05)
    ensures !CanUpdate(Initial(x, y), 0.05)
  {
  }

  /** jump(): only from the ground; take off upward and leave the ground. */
  function Jumped(p: PlayerState): (r: PlayerState)
    ensures !p.body.onGround ==> r == p
    ensures p.body.onGround ==>
              r == p.(body := p.body.(velocity := Vec2(p.body.velocity.x, JUMP_VELOCITY), onGround := false))
  {
    if p.body.onGround then
      p.(body := p.body.(velocity := p.body.velocity.(y := JUMP_VELOCITY), onGround := false))
    else p
  }

  class Player {
    var position: Vec2
    var velocity: Vec2
    var onGround: bool
    var frameWidth: nat
    var frameHeight: nat
    var frameCount: nat
    var currentFrame: nat
    var animationSpeed: real
    var frameTime: real
    var atlasWidth: nat
    var atlasHeight: nat
    var textureRect: TexRect

    function State(): PlayerState
      reads this
    {
      PlayerState(Body(position, velocity, onGround), frameWidth, frameHeight, frameCount,
                  currentFrame, animationSpeed, frameTime, atlasWidth, atlasHeight, textureRect)
    }

    ghost predicate Valid()
      reads this
    {
      Wf(State())
    }

    constructor (x: real, y: real)
      ensures State() == Initial(x, y) && Valid()
    {
      position := Vec2(x, y);
      velocity := Vec2(0.0, 0.0);
      onGround := false;
      frameWidth, frameHeight := 36, 36;
      frameCount, currentFrame := 4, 0;
      animationSpeed, frameTime := 10.0, 0.0;
      atlasWidth, atlasHeight := 0, 0;
      textureRect := TexRect(0, 0, 0, 0);
    }

    method LoadFromFile(file: LoadResult, size: (nat, nat) := (36, 36), count: nat := 4, speed: real := 10.0)
      returns (ok: bool)
      requires Valid()
      modifies this
      ensures Valid() && ok == file.Loaded?
      ensures State() == Load(old(State()), file, size.0, size.1, count, speed)
    {
      if file.LoadFailed? {
        return false;
      }
      frameWidth, frameHeight := size.0, size.1;
      frameCount := count;
      animationSpeed := speed;
      currentFrame := 0;
      frameTime := 0.0;
      atlasWidth, atlasHeight := file.width, file.height;
      textureRect := TexRect(0, 0, size.0, size.1);
      ok := true;
    }

    method Update(dt: real)
      requires Valid() && CanUpdate(State(), dt)
      modifies this
      ensures Valid()
      ensures State() == Step(old(State()), dt)
    {
      ghost var before := State();
      if !onGround {
        velocity := velocity.(y := velocity.y + GRAVITY * dt);
      }
      position := Vec2(position.x + velocity.x * dt, position.y + velocity.y * dt);
      if frameCount > 1 {
        frameTime := frameTime + dt;
        if animationSpeed != 0.0 && frameTime >= 0.5 / animationSpeed {
          frameTime := frameTime - 0.5 / animationSpeed;
          currentFrame := (currentFrame + 1) % frameCount;
          // The same row/column cell as the clip's, with no guard on the divisor.
          textureRect := Atlas.GridRect(currentFrame, frameWidth, frameHeight, atlasWidth);
        }
      }
      onGround := false;
      assert State().body == Integrate(before.body, dt).(onGround := false);
    }

    method Jump()
      modifies this
      ensures State() == Jumped(old(State()))
    {
      if onGround {
        velocity := velocity.(y := JUMP_VELOCITY);
        onGround := false;
      }
    }

    function Bounds(): (r: Rect)
      reads this
      ensures r.left == position.x && r.top == position.y
      ensures r.width == textureRect.width as real && r.height == textureRect.height as real
    {
      State().Bounds()
    }

    method GetPosition() returns (p: Vec2)
      ensures p == position
    {
      p := position;
    }

    method SetPosition(p: Vec2)
      modifies this
      ensures State() == old(State()).(body := old(State()).body.(position := p))
    {
      position := p;
    }
  }
}

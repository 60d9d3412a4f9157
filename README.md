# Platformer core: animation clip, player step, collision resolver, dragon, platforms

A Dafny model of the runtime core of a small SFML 2D platformer, with proofs about it. The model covers five parts:

- **Animation clip** (`Animations`, animation.dfy). A cursor over the frames of a sprite-sheet atlas. Elapsed time builds up in an accumulator. Once a whole period `1/fps` has built up, the period is taken off, the remainder is kept, and the clip moves ONE frame. A looping clip wraps to 0; a one-shot clip stops on its last frame. The texture rectangle of the current frame is the cell `(frame % perRow, frame / perRow)` of the atlas grid (`Atlas`, atlas.dfy).
- **Player** (`Players`, player.dfy). Gravity acts only while the player is airborne. The position then moves by the new velocity. A second, always-wrapping frame cursor runs with period `0.5/animationSpeed`. The ground flag is cleared at the end of every update. A jump is possible only from the ground.
- **Collision** (`Collision`, collision.dfy). The strict overlap of the player's box and a platform box decides the response. A taller-than-wide overlap is a side hit. Any other overlap is vertical: a landing if the player's top edge is above the platform's top, otherwise a head bump. A landing leaves 0.1 units of overlap so that the next frame still sees the contact.
- **Dragon enemy** (`Enemies`, enemy.dfy). The dragon has the same gravity step as the player. It also has four clips; one of them is current. The current clip is placed at the enemy's position and advanced.
- **Platforms** (`Platforms`, platform.dfy). Static rectangles. The fixed level layout is a ground strip and three ledges.

Every C++ class whose methods update fields is a Dafny class with those fields. For `Animation` and `Player`, a `State()` function gives the object's value as a datatype, and each method's `ensures` ties the new `State()` to a pure function of the old one (`Advance`, `Step`, `Load`, `Jumped`, ...). The properties the game relies on are proved about those functions. `Dragon` and `Enemy` have no `State()`: their methods state the new value of each field they touch, and the new state of each clip through the `Animations` functions; only the `Enemy` fields the core reads are modelled. Coordinates, times and velocities are `real`. Frame counts, frame indices, frame sizes and atlas sizes are `nat`. A texture load is a parameter, `LoadResult = LoadFailed | Loaded(width, height)`, that stands for the outcome of decoding the image file.

Four facts about the code that shape the model:

- The clip advances at most one frame per `update` (an `if`, not a catch-up loop), however much time has built up.
- The player's ground flag is cleared at the END of `update`, after the move, so only a collision pass run after `update` can set it for the next frame.
- There is no locomotion state machine (idle/walk/run/jump selection, facing flip). The dragon's `state` is set once, to `Idle`, by `loadDragon`.
- Boxes that only touch, such as `{0,0,10,10}` and `{0,10,20,5}`, do not collide: the intersection is strict, so nothing changes (`Collision.TouchingIsNoContact`).

## Model

| member | source | states |
|---|---|---|
| `Atlas.GridRect` | Animation/Animation.cpp:143-151 | the cell of a frame is one frame in size, starts on a multiple of the frame width (and of the frame height, or at top 0 when that is 0), lies within one atlas row (`left + w <= atlasWidth`), and is in row 0 for the first `perRow` frames; requires `w > 0` and `perRow > 0` |
| `Atlas.GridRectRoundTrip` | Animation/Animation.cpp:146-150 | the cell's column is `frame % perRow`; for a non-zero frame height, reading the frame number back from its cell gives the frame: distinct frames get distinct cells |
| `Atlas.GridRectInsideAtlas` | Player/Player.cpp:72-85 | a frame within the first `atlasHeight / h` rows gets a cell wholly inside the atlas image |
| `Kinematics.Integrate` | Player/Player.cpp:54-59 | gravity `980*dt` is added to `velocity.y` only when not grounded; `velocity.x` and the ground flag are kept; the position moves by the UPDATED velocity times `dt` |
| `Kinematics.FreeFall` | Enemy/Enemy.cpp:54-60 | after `n` airborne steps of `dt`: `vy` grows by `980*n*dt`, `x` moves uniformly, `y` moves by `n*dt*vy0 + 980*dt*dt*n*(n+1)/2` (velocity integrated before position) |
| `Kinematics.FallStep` | Enemy/Enemy.cpp:54-60 | one more airborne step extends the `n`-step fall formula to `n+1` |
| `Kinematics.FallFromRest` | Player/Player.cpp:54-59 | from rest, after time `t = n*dt`: `vy = 980*t` and the drop is `980*t*t/2 + 980*dt*t/2` |
| `Animations.Initial` | Animation/Animation.cpp:9-14 | the constructed clip satisfies the clip invariant, has no frames and no texture |
| `Animations.RefreshRect` | Animation/Animation.cpp:139-154 | only the texture rectangle can change, and only for a loaded clip with `atlasWidth >= frameWidth`. Then the new rectangle is one frame in size, starts on a multiple of the frame width and height (top 0 for a zero height), lies in column `frame % perRow`, fits in an atlas row, and (for a non-zero height) reads back as the current frame: together, the cell `(col*w, row*h)` of the current frame |
| `Animations.Load` | Animation/Animation.cpp:17-38 | failure changes nothing; success stores frame size, frame count and fps, resets cursor and accumulator, marks the texture loaded, puts the new sprite at (0,0), records the atlas size, and keeps the invariant. The rectangle becomes frame 0's cell `(0, 0, w, h)` when a frame fits in an atlas row, and the whole texture otherwise |
| `Animations.Advance` | Animation/Animation.cpp:41-63 | an inert clip (paused, no frames, or no texture) is unchanged. Otherwise the accumulator gains `dt` and loses one period iff a step is due. A looping clip's frame becomes `(frame + step) % frameCount`. A one-shot clip's frame becomes `min(frame + step, frameCount - 1)` and it keeps playing iff `frame + step < frameCount`. Without a step the rectangle is kept; after a step it is `RefreshRect` of the new frame. Nothing else changes; the invariant is kept |
| `Animations.WithFrame` | Animation/Animation.cpp:66-72 | `n >= frameCount` changes nothing; otherwise the frame becomes `n`, the rectangle is `RefreshRect` of frame `n`, and nothing else changes; the invariant is kept |
| `Animations.Stopped` | Animation/Animation.cpp:87-93 | not playing, frame 0, accumulator 0, the rectangle `RefreshRect` of frame 0; nothing else changes; the invariant is kept |
| `Animations.Place` | Animation/Animation.cpp:108-113 | the position changes to `p` only when the sprite exists; nothing else changes |
| `Animations.AdvanceTimes` | Animation/Animation.cpp:41-63 | any number of `update` calls keeps `currentFrame < frameCount` |
| `Animations.StopIdempotent` | Animation/Animation.cpp:87-93 | stopping twice equals stopping once |
| `Animations.LoopingAdvance` | Animation/Animation.cpp:45-54 | a playing looping clip advanced `n` times by exactly one period is at frame `(start + n) % frameCount`, with the accumulator back at 0, still playing |
| `Animations.OneShotAdvance` | Animation/Animation.cpp:52-58 | a playing one-shot clip advanced `n` times by one period is at `min(start + n, frameCount - 1)`, and is still playing iff `start + n < frameCount`; from then on it stays put |
| `Animations.Animation.constructor` | Animation/Animation.cpp:9-14 | the object holds `Initial()` |
| `Animations.Animation.LoadFromFile` | Animation/Animation.cpp:17-38 | returns whether the load succeeded; the new state is `Load(old state, ...)`; requires a non-zero frame width on success |
| `Animations.Animation.Update` | Animation/Animation.cpp:41-63 | new state is `Advance(old state, dt)`, invariant kept |
| `Animations.Animation.SetFrame` | Animation/Animation.cpp:66-72 | new state is `WithFrame(old state, n)` |
| `Animations.Animation.Play` | Animation/Animation.cpp:75-78 | only `isPlaying` changes, to true |
| `Animations.Animation.Pause` | Animation/Animation.cpp:81-84 | only `isPlaying` changes, to false |
| `Animations.Animation.Stop` | Animation/Animation.cpp:87-93 | new state is `Stopped(old state)` |
| `Animations.Animation.SetFps` | Animation/Animation.cpp:96-99 | only `fps` changes |
| `Animations.Animation.SetLoop` | Animation/Animation.cpp:102-105 | only `loop` changes |
| `Animations.Animation.SetPosition` | Animation/Animation.cpp:108-113 | new state is `Place(old state, p)` |
| `Animations.Animation.GetPosition` | Animation/Animation.cpp:116-122 | the sprite's position, or (0,0) when there is no sprite |
| `Animations.Animation.UpdateTextureRect` | Animation/Animation.cpp:139-154 | new state is `RefreshRect(old state)`; requires a non-zero frame width once loaded, because the division comes before the guard |
| `Players.Initial` | Player/Player.cpp:4-16 | the constructed player is at (x, y), airborne, and satisfies the cursor invariant |
| `Players.Load` | Player/Player.cpp:18-49 | failure changes nothing; success stores frame size, count and speed, resets cursor and accumulator, keeps the body (position included), and shows rectangle `(0, 0, w, h)`, so the bounds become `(position, w, h)` |
| `Players.Step` | Player/Player.cpp:51-91 | the body is `Integrate(body, dt)` with the ground flag then cleared. With `frameCount <= 1` the cursor, accumulator and rectangle are untouched. Otherwise a due step (period `0.5/animationSpeed`) sets the frame to `(frame + 1) % frameCount`, keeps the remainder of the accumulator, and selects that frame's cell: one frame in size, aligned to the frame grid, in column `frame % perRow`, within an atlas row, and (for a non-zero height) reading back as the new frame. A step that is not due only accumulates. Nothing else changes; the invariant is kept |
| `Players.UpdateBeforeLoadDividesByZero` | Player/Player.cpp:4-16 | a never-loaded player (empty texture, 4 frames, speed 10) has a frame step due after 0.05 s, and that step divides by zero frames per row |
| `Players.Jumped` | Player/Player.cpp:93-99 | grounded: `velocity.y = -400`, airborne, nothing else changes; not grounded: nothing changes |
| `Players.Player.constructor` | Player/Player.cpp:4-16 | the object holds `Initial(x, y)` |
| `Players.Player.LoadFromFile` | Player/Player.cpp:18-49 | returns whether the load succeeded; new state is `Load(old state, ...)` |
| `Players.Player.Update` | Player/Player.cpp:51-91 | new state is `Step(old state, dt)`; requires that a due frame step has a non-zero frame width and at least one frame per atlas row (no guard in the source) |
| `Players.Player.Jump` | Player/Player.cpp:93-99 | new state is `Jumped(old state)` |
| `Players.Player.Bounds` | Player/Player.cpp:101-104 | the box is the sprite position and the texture rectangle's size |
| `Players.Player.GetPosition` | Player/Player.cpp:106-109 | returns the sprite position |
| `Players.Player.SetPosition` | Player/Player.cpp:111-114 | only the position changes |
| `Collision.Intersection` | Physics/Collision.cpp:7-13 | present iff the boxes strictly overlap on both axes (touching is not overlap); when present it has positive size and lies inside both boxes |
| `Collision.IntersectionIsCommonPart` | Physics/Collision.cpp:7-13 | a point is strictly inside both boxes iff it is strictly inside their intersection |
| `Collision.Classify` | Physics/Collision.cpp:37-67 | no contact iff no overlap; a side hit iff `overlap.w < overlap.h`, pushed left iff the player's left edge is left of the platform's; a vertical hit otherwise (ties included), a landing iff the player's top is above the platform's |
| `Collision.Resolve` | Physics/Collision.cpp:16-95 | no contact: unchanged. Side hit: `x -/+ overlap.w`, `vx = 0`. Landing: `y - overlap.h + 0.1`, `vy = 0`, grounded. Head bump: `y + overlap.h`, `vy = 0`. Every other component is kept |
| `Collision.SideHit` | Physics/Collision.cpp:37-62 | a side hit moves x by exactly the overlap width, away from the platform, zeroes `vx`, and keeps y, `vy` and the ground flag |
| `Collision.TieIsVertical` | Physics/Collision.cpp:37-64 | equal overlap width and height resolve vertically: x kept, `vy = 0` |
| `Collision.LandingKeepsContact` | Physics/Collision.cpp:67-80 | a landing with the player's bottom inside the platform leaves that bottom exactly 0.1 below the platform top; the boxes still overlap, by 0.1 vertically |
| `Collision.TouchingIsNoContact` | Physics/Collision.cpp:18-23 | a player standing exactly on the platform's top edge is not moved |
| `Collision.SideHitSeparates` | Physics/Collision.cpp:37-62 | a side hit with the leading edge inside the platform leaves the boxes no longer overlapping |
| `Collision.HeadBumpSeparates` | Physics/Collision.cpp:82-93 | a head bump with the platform's bottom inside the player puts the player's top on the platform's bottom, with no overlap left |
| `Collision.HandleCollision` | Physics/Collision.cpp:16-95 | the player's body becomes `Resolve(old body, texture-rectangle size, platform box)`; no other player field changes |
| `Platforms.NewPlatform` | Platform/Platform.cpp:6-11 | the platform box has top-left (x, y) and bottom-right (x + width, y + height) |
| `Platforms.CreatePlatforms` | Platform/Platform.cpp:13-21 | exactly four platforms are appended and the old list is kept as a prefix. The first is the ground `(0, 550, 800, 50)`; the others are 150 x 20 at (200,450), (400,350), (600,250). The ledges have strictly increasing x and strictly decreasing y. All four have positive size |
| `Enemies.Dragon.constructor` | Enemy/Enemy.h:17-30 | a dragon record with four distinct fresh clips in their initial state, at rest at (0, 0), airborne, frame size 0, no current clip, state `Idle` |
| `Enemies.Enemy.constructor` | Enemy/Enemy.cpp:4-10 | the enemy is at (x, y) with zero velocity; its dragon is unloaded: four clips in `Initial()`, at rest at (0, 0), airborne, frame size 0, no current clip |
| `Enemies.Enemy.LoadDragon` | Enemy/Enemy.cpp:11-32 | `Dragon.LoadedFrom` holds: frame size 256 x 256, position (0,0), airborne, velocity kept, current clip idle, state `Idle`. The four clips are each `Load`ed (idle 3, walk 5, attack 4, death 5 frames at 8 fps) and idle is set playing. The result is true iff all four loads succeeded |
| `Enemies.Enemy.LoadClips` | Enemy/Enemy.cpp:22-30 | each clip is `Load`ed with 256 x 256 frames, its own frame count and 8 fps, idle is current and playing, state `Idle`; position, velocity, ground flag and frame size kept; true iff all four loads succeeded |
| `Enemies.Enemy.LoadAnimation` | Enemy/Enemy.cpp:35-47 | false iff the type is the dragon and one of its loads failed. For the dragon the new dragon state is exactly what `LoadDragon` promises (`Dragon.LoadedFrom`); other types change nothing |
| `Enemies.Enemy.Update` | Enemy/Enemy.cpp:49-67 | other types change nothing. For the dragon: its body becomes `Integrate(body, dt)` (so `onGround` and `vx` are kept). The current clip becomes `Advance(Place(clip, enemy position), dt)`; the position used is the enemy's, which never changes. The other three clips are unchanged |

## Left out

- Texture decoding, sprites and drawing (SFML) are outside the model. A load is a `LoadResult` parameter, and a sprite is reduced to its position and texture rectangle. Scale, origin and fill colour are not modelled.
- `Animation::setScale` and `Animation::getSprite` (Animation/Animation.cpp:125-136) are drawing passthroughs. `Enemy::getSprite` (Enemy/Enemy.cpp:69-79) is a render accessor that falls off its end for non-dragon types.
- main.cpp (window, events, drawing) and GameObject (a constructor that copies four fields and is used nowhere) are not part of this model.
- Float rounding: all coordinates and times are `real`. The constants 0.1f and 0.5f are taken as exact, and no float-exact result is claimed. `fps == 0` (an infinite period in float division) is modelled as "never due"; negative rates follow real arithmetic.
- Unsigned wrap-around: `currentFrame + 1` cannot wrap, because the invariant keeps the frame below `frameCount`. Other `unsigned`/`int` casts of rectangle values are taken as exact.
- `Collision.Intersection`: SFML's normalisation of rectangles with negative size is not modelled. Every player box in the model has non-negative size, and every platform the level creates has positive size.
- Fields the source leaves uninitialised: before `loadDragon`, the dragon's `onGround`, `state` and `current` start as false, `Idle` and null in the model. `Dragon::current` must be set before `Enemy::update` uses it, and `Enemies.Enemy.Update` requires that.
- The message `Player::loadFromFile` writes to `std::cerr` on a failed load (Player/Player.cpp:25) is output only; the model returns `false` and changes nothing.
- Default arguments are kept as Dafny default parameters: `rate := 10.0` for `Animations.Animation.LoadFromFile`, and `size := (36, 36)`, `count := 4`, `speed := 10.0` for `Players.Player.LoadFromFile`. The texture, which the source gives as a file path, has no default.
- Unused `Enemy` fields are not modelled: `type`, `state`, `frameSize`, `frameSizeX/Y`, `basePath` and the clips `idleAnimation`, `attackingAnimation`, `deadAnimation`.
- The locomotion state machine and facing flip are not modelled, because no core file contains them.

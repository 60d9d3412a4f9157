/** Enemies (Enemy/Enemy.h, Enemy/Enemy.cpp). Only the dragon has behaviour:
    a body under gravity and four animation clips, one of which is current. */
module Enemies {
  import opened Geometry
  import opened Kinematics
  import opened Animations

  datatype EnemyType = DragonEnemy | DemonEnemy | MedusaEnemy

  datatype EnemyState = Idle | Attacking | Dead

  /** The dragon's sprite sheets: 256 x 256 frames at 8 frames per second. */
  const DRAGON_FRAME: nat := 256
  const DRAGON_FPS: real := 8.0
  const IDLE_FRAMES: nat := 3
  const WALK_FRAMES: nat := 5
  const ATTACK_FRAMES: nat := 4
  const DEATH_FRAMES: nat := 5

  /** The `Dragon` record: its own body, four clips it owns, and a pointer to
      the clip on show. The pointer is unset (null) until `LoadDragon`. */
  class Dragon {
    var position: Vec2
    var velocity: Vec2
    const idle: Animation
    const walk: Animation
    const attack: Animation
    const death: Animation
    var frameWidth: nat
    var frameHeight: nat
    var current: Animation?
    var state: EnemyState
    var onGround: bool

    function Motion(): Body
      reads this
    {
      Body(position, velocity, onGround)
    }

    ghost predicate Valid()
      reads this, idle, walk, attack, death
    {
      && idle != walk && idle != attack && idle != death
      && walk != attack && walk != death && attack != death
      && (current == null || current == idle || current == walk || current == attack || current == death)
      && idle.Valid() && walk.Valid() && attack.Valid() && death.Valid()
    }

    /** What `loadDragon` leaves behind, given the dragon's velocity and the
        four clips before the call: fixed 256 x 256 geometry, the body at (0, 0)
        and airborne with its velocity kept, each clip loaded with its own frame
        count at 8 fps, and the idle clip current, in the `Idle` state and
        playing. */
    ghost predicate LoadedFrom(velocity0: Vec2, idle0: Clip, walk0: Clip, attack0: Clip, death0: Clip,
                               idleFile: LoadResult, walkFile: LoadResult,
                               attackFile: LoadResult, deathFile: LoadResult)
      reads this, idle, walk, attack, death
      requires Wf(idle0) && Wf(walk0) && Wf(attack0) && Wf(death0)
    {
      && frameWidth == DRAGON_FRAME && frameHeight == DRAGON_FRAME
      && position == Vec2(0.0, 0.0) && !onGround && velocity == velocity0
      && current == idle && state == Idle
      && idle.State() == Load(idle0, idleFile, DRAGON_FRAME, DRAGON_FRAME, IDLE_FRAMES, DRAGON_FPS).(isPlaying := true)
      && walk.State() == Load(walk0, walkFile, DRAGON_FRAME, DRAGON_FRAME, WALK_FRAMES, DRAGON_FPS)
      && attack.State() == Load(attack0, attackFile, DRAGON_FRAME, DRAGON_FRAME, ATTACK_FRAMES, DRAGON_FPS)
      && death.State() == Load(death0, deathFile, DRAGON_FRAME, DRAGON_FRAME, DEATH_FRAMES, DRAGON_FPS)
    }

    constructor ()
      ensures Valid() && fresh(idle) && fresh(walk) && fresh(attack) && fresh(death)
      ensures position == Vec2(0.0, 0.0) && velocity == Vec2(0.0, 0.0) && !onGround
      ensures frameWidth == 0 && frameHeight == 0 && current == null && state == Idle
      ensures idle.State() == Initial() && walk.State() == Initial()
      ensures attack.State() == Initial() && death.State() == Initial()
    {
      position, velocity := Vec2(0.0, 0.0), Vec2(0.0, 0.0);
      idle := new Animation();
      walk := new Animation();
      attack := new Animation();
      death := new Animation();
      frameWidth, frameHeight := 0, 0;
      current := null;
      state := Idle;
      onGround := false;
    }
  }

  class Enemy {
    var position: Vec2
    var velocity: Vec2
    const dragon: Dragon

    ghost predicate Valid()
      reads this, dragon, dragon.idle, dragon.walk, dragon.attack, dragon.death
    {
      dragon.Valid()
    }

    /** Enemy(x, y, type): the enemy's own position and velocity; the dragon
        record starts unloaded: at rest at (0, 0), airborne, no frame size, no
        current clip, and four clips as their constructor leaves them. */
    constructor (x: real, y: real, kind: EnemyType)
      ensures Valid() && fresh(dragon) && fresh(dragon.idle) && fresh(dragon.walk)
      ensures fresh(dragon.attack) && fresh(dragon.death)
      ensures position == Vec2(x, y) && velocity == Vec2(0.0, 0.0)
      ensures dragon.position == Vec2(0.0, 0.0) && dragon.velocity == Vec2(0.0, 0.0) && !dragon.onGround
      ensures dragon.frameWidth == 0 && dragon.frameHeight == 0 && dragon.current == null && dragon.state == Idle
      ensures dragon.idle.State() == Initial() && dragon.walk.State() == Initial()
      ensures dragon.attack.State() == Initial() && dragon.death.State() == Initial()
    {
      position := Vec2(x, y);
      velocity := Vec2(0.0, 0.0);
      dragon := new Dragon();
    }

    /** loadDragon(d): fixed geometry and start state, then the four loads and
        the idle clip made current (`LoadClips`). The result says whether every
        load succeeded. */
    method LoadDragon(d: Dragon, idleFile: LoadResult, walkFile: LoadResult,
                      attackFile: LoadResult, deathFile: LoadResult) returns (success: bool)
      requires d.Valid()
      modifies d, d.idle, d.walk, d.attack, d.death
      ensures d.Valid()
      ensures success == (idleFile.Loaded? && walkFile.Loaded? && attackFile.Loaded? && deathFile.Loaded?)
      ensures d.LoadedFrom(old(d.velocity), old(d.idle.State()), old(d.walk.State()), old(d.attack.State()),
                           old(d.death.State()), idleFile, walkFile, attackFile, deathFile)
    {
      d.frameWidth := DRAGON_FRAME;
      d.frameHeight := DRAGON_FRAME;
      d.position := Vec2(0.0, 0.0);
      d.onGround := false;
      success := LoadClips(d, idleFile, walkFile, attackFile, deathFile);
    }

    /** The rest of loadDragon: the four `loadFromFile` calls (all of them
        attempted), each with the dragon's frame size, its own frame count and
        8 fps; then the idle clip made current, the state `Idle`, and the idle
        clip set playing. Position, velocity and ground flag are untouched. */
    method LoadClips(d: Dragon, idleFile: LoadResult, walkFile: LoadResult,
                     attackFile: LoadResult, deathFile: LoadResult) returns (success: bool)
      requires d.Valid() && d.frameWidth == DRAGON_FRAME && d.frameHeight == DRAGON_FRAME
      modifies d, d.idle, d.walk, d.attack, d.death
      ensures d.Valid()
      ensures success == (idleFile.Loaded? && walkFile.Loaded? && attackFile.Loaded? && deathFile.Loaded?)
      ensures d.frameWidth == DRAGON_FRAME && d.frameHeight == DRAGON_FRAME
      ensures d.position == old(d.position) && d.onGround == old(d.onGround) && d.velocity == old(d.velocity)
      ensures d.current == d.idle && d.state == Idle
      ensures d.idle.State() == Load(old(d.idle.State()), idleFile, DRAGON_FRAME, DRAGON_FRAME, IDLE_FRAMES, DRAGON_FPS).(isPlaying := true)
      ensures d.walk.State() == Load(old(d.walk.State()), walkFile, DRAGON_FRAME, DRAGON_FRAME, WALK_FRAMES, DRAGON_FPS)
      ensures d.attack.State() == Load(old(d.attack.State()), attackFile, DRAGON_FRAME, DRAGON_FRAME, ATTACK_FRAMES, DRAGON_FPS)
      ensures d.death.State() == Load(old(d.death.State()), deathFile, DRAGON_FRAME, DRAGON_FRAME, DEATH_FRAMES, DRAGON_FPS)
    {
      success := d.idle.LoadFromFile(idleFile, (d.frameWidth, d.frameHeight), IDLE_FRAMES, DRAGON_FPS);
      var ok := d.walk.LoadFromFile(walkFile, (d.frameWidth, d.frameHeight), WALK_FRAMES, DRAGON_FPS);
      success := success && ok;
      ok := d.attack.LoadFromFile(attackFile, (d.frameWidth, d.frameHeight), ATTACK_FRAMES, DRAGON_FPS);
      success := success && ok;
      ok := d.death.LoadFromFile(deathFile, (d.frameWidth, d.frameHeight), DEATH_FRAMES, DRAGON_FPS);
      success := success && ok;
      d.current := d.idle;
      d.state := Idle;
      d.idle.Play();
    }

    /** loadAnimation(type): only the dragon has assets to load. */
    method LoadAnimation(kind: EnemyType, idleFile: LoadResult, walkFile: LoadResult,
                         attackFile: LoadResult, deathFile: LoadResult) returns (ok: bool)
      requires Valid()
      modifies dragon, dragon.idle, dragon.walk, dragon.attack, dragon.death
      ensures Valid()
      ensures !ok <==> kind == DragonEnemy &&
                       !(idleFile.Loaded? && walkFile.Loaded? && attackFile.Loaded? && deathFile.Loaded?)
      ensures kind == DragonEnemy ==>
                dragon.LoadedFrom(old(dragon.velocity), old(dragon.idle.State()), old(dragon.walk.State()),
                                  old(dragon.attack.State()), old(dragon.death.State()),
                                  idleFile, walkFile, attackFile, deathFile)
      ensures kind != DragonEnemy ==>
                unchanged(dragon, dragon.idle, dragon.walk, dragon.attack, dragon.death)
    {
      match kind
      case DragonEnemy =>
        var loaded := LoadDragon(dragon, idleFile, walkFile, attackFile, deathFile);
        if !loaded {
          return false;
        }
        return true;
      case _ =>
        return true;
    }

    /** update(dt, type): for the dragon, gravity while airborne, then the move,
        then the current clip placed at the ENEMY's position (not the dragon's)
        and advanced by `dt`. Other enemy types do nothing. */
    method Update(dt: real, kind: EnemyType)
      requires Valid()
      requires kind == DragonEnemy ==> dragon.current != null
      modifies dragon, dragon.idle, dragon.walk, dragon.attack, dragon.death
      ensures Valid()
      ensures position == old(position) && velocity == old(velocity)
      ensures kind != DragonEnemy ==>
                unchanged(dragon, dragon.idle, dragon.walk, dragon.attack, dragon.death)
      ensures kind == DragonEnemy ==>
                && dragon.Motion() == Integrate(old(dragon.Motion()), dt)
                && dragon.current == old(dragon.current)
                && dragon.current.State() == Advance(Place(old(dragon.current.State()), position), dt)
                && dragon.state == old(dragon.state)
                && dragon.frameWidth == old(dragon.frameWidth) && dragon.frameHeight == old(dragon.frameHeight)
                && (dragon.idle != dragon.current ==> unchanged(dragon.idle))
                && (dragon.walk != dragon.current ==> unchanged(dragon.walk))
                && (dragon.attack != dragon.current ==> unchanged(dragon.attack))
                && (dragon.death != dragon.current ==> unchanged(dragon.death))
    {
      match kind
      case DragonEnemy =>
        if !dragon.onGround {
          dragon.velocity := dragon.velocity.(y := dragon.velocity.y + GRAVITY * dt);
        }
        dragon.position := Vec2(dragon.position.x + dragon.velocity.x * dt,
                                dragon.position.y + dragon.velocity.y * dt);
        dragon.current.SetPosition(position);
        dragon.current.Update(dt);
      case _ =>
    }
  }
}

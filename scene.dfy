/**
 * The data and the boundary arithmetic of the first prototype scene
 * ("puffy the universe decimator"): a player sprite and a batch of enemy
 * sprites moving inside a window.  Coordinates are reals; the program's
 * f32 rounding is not modelled.
 */
module Scene {

  // The program's tuning constants (main.rs:4-9).
  const PLAYER_SPEED: real := 500.0
  const PLAYER_SPRITE_SIZE: real := 32.0
  const NUMBER_OF_ENEMIES: nat := 6
  const ENEMY_SPEED: real := 200.0
  /**
   * Declared by the program but never read: every bound uses
   * PLAYER_SPRITE_SIZE.  Both are 32, so a box computed from this one
   * would be the same box.
   */
  const ENEMY_SPRITE_SIZE: real := 32.0

  datatype Vec2 = Vec2(x: real, y: real)
  datatype Vec3 = Vec3(x: real, y: real, z: real)

  /** The primary window, as far as the systems look at it. */
  datatype Window = Window(width: real, height: real)

  /** One entity matched by the enemy queries: its translation and its Enemy component. */
  datatype EnemyEntity = EnemyEntity(translation: Vec3, direction: Vec2)

  /** The keys the player systems poll (arrows and WASD). */
  datatype Key = Left | Right | Up | Down | A | D | W | S

  /** The box a sprite's centre is kept in: the window inset by half a sprite. */
  datatype Bounds = Bounds(xMin: real, xMax: real, yMin: real, yMax: real)

  /** Vec3::new(d.x, d.y, 0.0): an enemy heading lifted into the translation's space. */
  function Lift(d: Vec2): Vec3 {
    Vec3(d.x, d.y, 0.0)
  }

  function SquaredLength(d: Vec2): real {
    d.x * d.x + d.y * d.y
  }

  predicate NonEmpty(b: Bounds) {
    b.xMin <= b.xMax && b.yMin <= b.yMax
  }

  predicate InBounds(t: Vec3, b: Bounds) {
    b.xMin <= t.x <= b.xMax && b.yMin <= t.y <= b.yMax
  }

  predicate OutsideX(t: Vec3, b: Bounds) {
    t.x < b.xMin || t.x > b.xMax
  }

  predicate OutsideY(t: Vec3, b: Bounds) {
    t.y < b.yMin || t.y > b.yMax
  }

  /** The window inset by half of a sprite of the given size on every side. */
  function InsetFor(window: Window, spriteSize: real): (b: Bounds)
    ensures b.xMin <= b.xMax <==> window.width >= spriteSize
    ensures b.yMin <= b.yMax <==> window.height >= spriteSize
    ensures b.xMin == b.yMin && b.xMin + b.xMax == window.width && b.yMin + b.yMax == window.height
  {
    var half := spriteSize / 2.0;
    Bounds(0.0 + half, window.width - half, 0.0 + half, window.height - half)
  }

  /**
   * The box every system uses, for the player and the enemies alike: it is
   * computed from PLAYER_SPRITE_SIZE (main.rs:65-70, 176-181, 202-207).
   */
  function Inset(window: Window): (b: Bounds)
    ensures b.xMin == 16.0 && b.yMin == 16.0
    ensures b.xMax == window.width - 16.0 && b.yMax == window.height - 16.0
  {
    InsetFor(window, PLAYER_SPRITE_SIZE)
  }

  /**
   * One axis of the confinement: below the range goes to the low end,
   * otherwise above it goes to the high end, otherwise unchanged.
   */
  function ClampAxis(v: real, lo: real, hi: real): (r: real)
    ensures lo <= hi ==> lo <= r <= hi
    ensures r == v <==> lo <= v <= hi
    ensures r == v || r == lo || r == hi
  {
    if v < lo then lo else if v > hi then hi else v
  }

  /** A translation clamped into the box, each axis on its own; z is never touched. */
  function Confined(t: Vec3, b: Bounds): (r: Vec3)
    ensures r.z == t.z
    ensures NonEmpty(b) ==> InBounds(r, b)
    ensures InBounds(t, b) ==> r == t
    ensures r.x == t.x <==> b.xMin <= t.x <= b.xMax
    ensures r.y == t.y <==> b.yMin <= t.y <= b.yMax
  {
    Vec3(ClampAxis(t.x, b.xMin, b.xMax), ClampAxis(t.y, b.yMin, b.yMax), t.z)
  }

  /** An enemy heading after the wall check: a component flips sign when its axis is outside. */
  function Reflected(d: Vec2, t: Vec3, b: Bounds): (r: Vec2)
    ensures OutsideX(t, b) ==> r.x == -d.x
    ensures !OutsideX(t, b) ==> r.x == d.x
    ensures OutsideY(t, b) ==> r.y == -d.y
    ensures !OutsideY(t, b) ==> r.y == d.y
    ensures r.x * r.x == d.x * d.x && r.y * r.y == d.y * d.y
    ensures InBounds(t, b) ==> r == d
  {
    Vec2(if OutsideX(t, b) then -d.x else d.x,
         if OutsideY(t, b) then -d.y else d.y)
  }

  /** `translation + direction * speed * dt`, the movement step of both moving systems. */
  function Displaced(t: Vec3, direction: Vec3, speed: real, dt: real): (r: Vec3)
    ensures direction.z == 0.0 ==> r.z == t.z
    ensures speed == 0.0 || dt == 0.0 ==> r == t
    ensures direction == Vec3(0.0, 0.0, 0.0) ==> r == t
  {
    Vec3(t.x + direction.x * speed * dt,
         t.y + direction.y * speed * dt,
         t.z + direction.z * speed * dt)
  }

  /** An enemy after enemy_movement: it moves along its heading, which stays as it is. */
  function MovedEnemy(e: EnemyEntity, dt: real): (r: EnemyEntity)
    ensures r.direction == e.direction
    ensures r.translation.z == e.translation.z
    ensures dt == 0.0 ==> r == e
  {
    e.(translation := Displaced(e.translation, Lift(e.direction), ENEMY_SPEED, dt))
  }

  /** An enemy after update_enemy_direction: only its heading can change. */
  function TurnedEnemy(e: EnemyEntity, b: Bounds): (r: EnemyEntity)
    ensures r.translation == e.translation
    ensures SquaredLength(r.direction) == SquaredLength(e.direction)
    ensures InBounds(e.translation, b) ==> r == e
  {
    e.(direction := Reflected(e.direction, e.translation, b))
  }

  /** An enemy after confine_enemy: only its translation can change. */
  function ConfinedEnemy(e: EnemyEntity, b: Bounds): (r: EnemyEntity)
    ensures r.direction == e.direction
    ensures NonEmpty(b) ==> InBounds(r.translation, b)
    ensures InBounds(e.translation, b) ==> r == e
  {
    e.(translation := Confined(e.translation, b))
  }

  /**
   * One frame of enemy logic as the program schedules it: movement, then
   * the direction update; confine_enemy is not in the frame.
   */
  function ScheduledFrame(e: EnemyEntity, b: Bounds, dt: real): (r: EnemyEntity)
    ensures SquaredLength(r.direction) == SquaredLength(e.direction)
  {
    TurnedEnemy(MovedEnemy(e, dt), b)
  }

  /**
   * One frame of the same two systems in the other order: the tuple that
   * registers them imposes no order, so the engine may run the direction
   * update first.
   */
  function ReversedFrame(e: EnemyEntity, b: Bounds, dt: real): (r: EnemyEntity)
    ensures SquaredLength(r.direction) == SquaredLength(e.direction)
  {
    MovedEnemy(TurnedEnemy(e, b), dt)
  }

  /** One frame of enemy logic with confinement applied after the direction update. */
  function CorrectedFrame(e: EnemyEntity, b: Bounds, dt: real): (r: EnemyEntity)
    ensures NonEmpty(b) ==> InBounds(r.translation, b)
    ensures SquaredLength(r.direction) == SquaredLength(e.direction)
    ensures r.translation.z == e.translation.z
  {
    ConfinedEnemy(ScheduledFrame(e, b, dt), b)
  }

  /** An enemy after one scheduled frame per entry of `dts`, the frame times in order. */
  function ScheduledFrames(e: EnemyEntity, b: Bounds, dts: seq<real>): EnemyEntity
    decreases |dts|
  {
    if dts == [] then e else ScheduledFrames(ScheduledFrame(e, b, dts[0]), b, dts[1..])
  }

  /** An enemy after one frame in the other order per entry of `dts`. */
  function ReversedFrames(e: EnemyEntity, b: Bounds, dts: seq<real>): EnemyEntity
    decreases |dts|
  {
    if dts == [] then e else ReversedFrames(ReversedFrame(e, b, dts[0]), b, dts[1..])
  }

  /** An enemy after one corrected frame per entry of `dts`. */
  function CorrectedFrames(e: EnemyEntity, b: Bounds, dts: seq<real>): EnemyEntity
    decreases |dts|
  {
    if dts == [] then e else CorrectedFrames(CorrectedFrame(e, b, dts[0]), b, dts[1..])
  }

  predicate HeldLeft(pressed: set<Key>) { Left in pressed || A in pressed }
  predicate HeldRight(pressed: set<Key>) { Right in pressed || D in pressed }
  predicate HeldUp(pressed: set<Key>) { Up in pressed || W in pressed }
  predicate HeldDown(pressed: set<Key>) { Down in pressed || S in pressed }

  /** +1, 0 or -1 along one axis, from whether its positive and negative keys are held. */
  function AxisIntent(positive: bool, negative: bool): real {
    (if positive then 1.0 else 0.0) - (if negative then 1.0 else 0.0)
  }

  /**
   * The player's raw movement direction before normalisation: each axis
   * is +1, 0 or -1, and opposing keys cancel.
   */
  function PressedDirection(pressed: set<Key>): (d: Vec3)
    ensures d.z == 0.0
    ensures d.x in {-1.0, 0.0, 1.0} && d.y in {-1.0, 0.0, 1.0}
    ensures d.x == 0.0 <==> HeldLeft(pressed) == HeldRight(pressed)
    ensures d.x == 1.0 <==> HeldRight(pressed) && !HeldLeft(pressed)
    ensures d.y == 0.0 <==> HeldUp(pressed) == HeldDown(pressed)
    ensures d.y == 1.0 <==> HeldUp(pressed) && !HeldDown(pressed)
  {
    Vec3(AxisIntent(HeldRight(pressed), HeldLeft(pressed)),
         AxisIntent(HeldUp(pressed), HeldDown(pressed)),
         0.0)
  }

  /** Where spawn_player puts the player: the window's centre (main.rs:45-49). */
  function PlayerSpawnTranslation(window: Window): (t: Vec3)
    ensures t.z == 0.0
    ensures window.width >= PLAYER_SPRITE_SIZE && window.height >= PLAYER_SPRITE_SIZE
            ==> InBounds(t, Inset(window))
  {
    Vec3(window.width / 2.0, window.height / 2.0, 0.0)
  }

  /**
   * The random draws of one spawn_enemies iteration: the two position
   * draws and an arbitrary caller-supplied heading.
   */
  datatype SpawnDraw = SpawnDraw(u: real, v: real, heading: Vec2)

  predicate UnitInterval(r: real) { 0.0 <= r < 1.0 }

  /** A translation lies in `[0, width) x [0, height)` at depth 0. */
  predicate InWindow(t: Vec3, window: Window) {
    0.0 <= t.x < window.width && 0.0 <= t.y < window.height && t.z == 0.0
  }

  /** The enemy one spawn iteration creates from its draws. */
  function SpawnedEnemy(draw: SpawnDraw, window: Window): (e: EnemyEntity)
    ensures UnitInterval(draw.u) && UnitInterval(draw.v) && window.width > 0.0 && window.height > 0.0
            ==> InWindow(e.translation, window)
    ensures e.direction == draw.heading
  {
    ScaledDrawInRange(draw.u, window.width);
    ScaledDrawInRange(draw.v, window.height);
    EnemyEntity(Vec3(draw.u * window.width, draw.v * window.height, 0.0), draw.heading)
  }

  lemma ScaledDrawInRange(u: real, extent: real)
    ensures UnitInterval(u) && extent > 0.0 ==> 0.0 <= u * extent < extent
  {
    if UnitInterval(u) && extent > 0.0 {
      assert (1.0 - u) * extent > 0.0;
    }
  }
}

/**
 * Properties of the scene's boundary arithmetic: what confinement,
 * the direction update and movement guarantee, how they compose over
 * frames, and worked scenarios.
 */
module Properties {
  import opened Scene
  import opened Systems

  function Distance(a: real, b: real): real {
    if a >= b then a - b else b - a
  }

  // ---- Confinement ----

  /** With a window at least one sprite wide and high, the clamp lands in `[16, dimension - 16]`. */
  lemma ConfinedWithinWindow(t: Vec3, window: Window)
    requires window.width >= PLAYER_SPRITE_SIZE && window.height >= PLAYER_SPRITE_SIZE
    ensures var r := Confined(t, Inset(window));
      16.0 <= r.x <= window.width - 16.0 && 16.0 <= r.y <= window.height - 16.0 && r.z == t.z
  {
  }

  /** Confining twice is confining once, whenever the box is not empty. */
  lemma ConfineIdempotent(t: Vec3, b: Bounds)
    requires NonEmpty(b)
    ensures Confined(Confined(t, b), b) == Confined(t, b)
  {
  }

  /**
   * In a window narrower than a sprite the box is empty (xMin 16 > xMax 4
   * for width 20) and a second clamp moves the sprite again.
   */
  lemma ConfineNotIdempotentInNarrowWindow()
    ensures var b := Inset(Window(20.0, 600.0));
      var t := Vec3(16.0, 300.0, 0.0);
      Confined(t, b) == Vec3(4.0, 300.0, 0.0) && Confined(Confined(t, b), b) == t
  {
  }

  /** Each axis of the result depends on that axis of the input alone. */
  lemma ConfinedPerAxis(s: Vec3, t: Vec3, b: Bounds)
    ensures s.x == t.x ==> Confined(s, b).x == Confined(t, b).x
    ensures s.y == t.y ==> Confined(s, b).y == Confined(t, b).y
    ensures s.z == t.z ==> Confined(s, b).z == Confined(t, b).z
  {
  }

  /** The clamp picks the point of the range nearest to the input. */
  lemma ClampIsNearest(v: real, lo: real, hi: real, u: real)
    requires lo <= u <= hi
    ensures Distance(ClampAxis(v, lo, hi), v) <= Distance(u, v)
  {
  }

  // ---- Direction update ----

  /** Reflecting at the same translation twice restores the heading. */
  lemma ReflectedTwice(d: Vec2, t: Vec3, b: Bounds)
    ensures Reflected(Reflected(d, t, b), t, b) == d
  {
  }

  /** A heading that points further out of the box is turned back in on that axis. */
  lemma ReflectionTurnsBack(d: Vec2, t: Vec3, b: Bounds)
    ensures t.x > b.xMax && d.x > 0.0 ==> Reflected(d, t, b).x < 0.0
    ensures t.x < b.xMin && d.x < 0.0 ==> Reflected(d, t, b).x > 0.0
    ensures t.y > b.yMax && d.y > 0.0 ==> Reflected(d, t, b).y < 0.0
    ensures t.y < b.yMin && d.y < 0.0 ==> Reflected(d, t, b).y > 0.0
  {
  }

  /** ...but a heading that already points back in is turned outward, since the test ignores the heading. */
  lemma ReflectionTurnsInwardHeadingOut(d: Vec2, t: Vec3, b: Bounds)
    ensures t.x < b.xMin && d.x > 0.0 ==> Reflected(d, t, b).x < 0.0
    ensures t.x > b.xMax && d.x < 0.0 ==> Reflected(d, t, b).x > 0.0
  {
  }

  // ---- Movement ----

  /** Moving for `dt` and then for `-dt` along the same direction returns to the start. */
  lemma DisplacedUndone(t: Vec3, direction: Vec3, speed: real, dt: real)
    ensures Displaced(Displaced(t, direction, speed, dt), direction, speed, -dt) == t
  {
  }

  /** Two steps along one direction add up to a single step of the summed time. */
  lemma DisplacedAdditive(t: Vec3, direction: Vec3, speed: real, dt1: real, dt2: real)
    ensures Displaced(Displaced(t, direction, speed, dt1), direction, speed, dt2)
         == Displaced(t, direction, speed, dt1 + dt2)
  {
    assert direction.x * speed * dt1 + direction.x * speed * dt2 == direction.x * speed * (dt1 + dt2);
    assert direction.y * speed * dt1 + direction.y * speed * dt2 == direction.y * speed * (dt1 + dt2);
    assert direction.z * speed * dt1 + direction.z * speed * dt2 == direction.z * speed * (dt1 + dt2);
  }

  /**
   * When no axis has a net key (nothing held, or only opposing keys), and
   * normalize_or_zero maps zero to zero, the player does not move.
   */
  lemma NoNetKeyNoMovement(t: Vec3, pressed: set<Key>, dt: real, normalizeOrZero: Vec3 -> Vec3)
    requires normalizeOrZero(Vec3(0.0, 0.0, 0.0)) == Vec3(0.0, 0.0, 0.0)
    requires HeldLeft(pressed) == HeldRight(pressed) && HeldUp(pressed) == HeldDown(pressed)
    ensures Displaced(t, normalizeOrZero(PressedDirection(pressed)), PLAYER_SPEED, dt) == t
  {
    assert PressedDirection(pressed) == Vec3(0.0, 0.0, 0.0);
  }

  /** An enemy step adds `direction * ENEMY_SPEED * dt` on x and y and leaves z alone. */
  lemma MovedEnemyStep(e: EnemyEntity, dt: real)
    ensures MovedEnemy(e, dt).translation == Vec3(e.translation.x + e.direction.x * ENEMY_SPEED * dt,
                                                  e.translation.y + e.direction.y * ENEMY_SPEED * dt,
                                                  e.translation.z)
    ensures MovedEnemy(e, dt).direction == e.direction
  {
    var lifted := Lift(e.direction);
    assert lifted.z * ENEMY_SPEED * dt == 0.0;
    assert MovedEnemy(e, dt).translation == Displaced(e.translation, lifted, ENEMY_SPEED, dt);
  }

  // ---- Frames ----

  /** Neither schedule changes the length of a heading, however many frames pass. */
  lemma {:induction false} FramesKeepSpeed(e: EnemyEntity, b: Bounds, dts: seq<real>)
    ensures SquaredLength(ScheduledFrames(e, b, dts).direction) == SquaredLength(e.direction)
    ensures SquaredLength(CorrectedFrames(e, b, dts).direction) == SquaredLength(e.direction)
    decreases |dts|
  {
    if dts != [] {
      FramesKeepSpeed(ScheduledFrame(e, b, dts[0]), b, dts[1..]);
      FramesKeepSpeed(CorrectedFrame(e, b, dts[0]), b, dts[1..]);
    }
  }

  /** With confinement in the frame, an enemy is inside the box after every frame. */
  lemma {:induction false} CorrectedFramesStayInside(e: EnemyEntity, b: Bounds, dts: seq<real>)
    requires NonEmpty(b) && dts != []
    ensures InBounds(CorrectedFrames(e, b, dts).translation, b)
    decreases |dts|
  {
    if |dts| > 1 {
      CorrectedFramesStayInside(CorrectedFrame(e, b, dts[0]), b, dts[1..]);
    }
  }

  // ---- The unscheduled confine_enemy ----

  /**
   * An enemy outside the box on x, moving only along x, whose step for one
   * frame of `dt` leaves it outside on x as well.
   */
  predicate TrappedOnX(e: EnemyEntity, b: Bounds, dt: real) {
    var t := e.translation;
    e.direction.y == 0.0 && b.yMin <= t.y <= b.yMax &&
    OutsideX(t, b) && OutsideX(Vec3(t.x + e.direction.x * ENEMY_SPEED * dt, t.y, t.z), b)
  }

  /**
   * As scheduled, one frame takes a trapped enemy to its mirror image (one step
   * further on, heading reversed), which is trapped too, and the next frame
   * brings it back exactly: the heading flips on every frame.
   */
  lemma ScheduledFrameFlipsBack(e: EnemyEntity, b: Bounds, dt: real)
    requires TrappedOnX(e, b, dt)
    ensures var next := ScheduledFrame(e, b, dt);
      TrappedOnX(next, b, dt) && !InBounds(next.translation, b) && ScheduledFrame(next, b, dt) == e
  {
    var t, d := e.translation, e.direction;
    var step := d.x * ENEMY_SPEED * dt;
    var moved := MovedEnemy(e, dt);
    assert moved.translation == Vec3(t.x + step, t.y, t.z);
    var next := TurnedEnemy(moved, b);
    assert next == EnemyEntity(Vec3(t.x + step, t.y, t.z), Vec2(-d.x, 0.0));
    assert (-d.x) * ENEMY_SPEED * dt == -step;
    assert MovedEnemy(next, dt).translation == Vec3(t.x, t.y, t.z);
  }

  /**
   * So, with a constant frame time, a trapped enemy alternates between two
   * translations outside the box forever.
   */
  lemma {:induction false} ScheduledFramesTrapEnemy(e: EnemyEntity, b: Bounds, dt: real, dts: seq<real>)
    requires TrappedOnX(e, b, dt) && ConstantFrameTime(dts, dt)
    ensures ScheduledFrames(e, b, dts) == if |dts| % 2 == 0 then e else ScheduledFrame(e, b, dt)
    ensures !InBounds(ScheduledFrames(e, b, dts).translation, b)
    decreases |dts|
  {
    if dts != [] {
      ScheduledFrameFlipsBack(e, b, dt);
      assert ConstantFrameTime(dts[1..], dt) by {
        forall i | 0 <= i < |dts| - 1 ensures dts[1..][i] == dt {
          assert dts[1..][i] == dts[i + 1];
        }
      }
      ScheduledFramesTrapEnemy(ScheduledFrame(e, b, dt), b, dt, dts[1..]);
    }
  }

  predicate ConstantFrameTime(dts: seq<real>, dt: real) {
    forall i :: 0 <= i < |dts| ==> dts[i] == dt
  }

  /** An enemy spawned 2 units from the left edge, heading right. */
  function TrappedStart(): EnemyEntity {
    EnemyEntity(Vec3(2.0, 300.0, 0.0), Vec2(1.0, 0.0))
  }

  /**
   * Such an enemy exists: in an 800x600 window with frames of 0.01 s, the
   * enemy at (2, 300) heading right never gets back inside the box.
   */
  lemma TrappedStartNeverReturns(dts: seq<real>)
    requires ConstantFrameTime(dts, 0.01)
    ensures !InBounds(ScheduledFrames(TrappedStart(), Inset(Window(800.0, 600.0)), dts).translation,
                      Inset(Window(800.0, 600.0)))
  {
    var b := Inset(Window(800.0, 600.0));
    assert 2.0 + 1.0 * ENEMY_SPEED * 0.01 == 4.0;
    assert TrappedOnX(TrappedStart(), b, 0.01);
    ScheduledFramesTrapEnemy(TrappedStart(), b, 0.01, dts);
  }

  /**
   * The same enemy in the other order of the two systems: an enemy outside
   * the box on x, moving only along x, that stays outside on x after a step
   * along its reversed heading.
   */
  predicate TrappedOnXReversed(e: EnemyEntity, b: Bounds, dt: real) {
    var t := e.translation;
    e.direction.y == 0.0 && b.yMin <= t.y <= b.yMax &&
    OutsideX(t, b) && OutsideX(Vec3(t.x - e.direction.x * ENEMY_SPEED * dt, t.y, t.z), b)
  }

  /**
   * With the direction update first, such an enemy turns, steps back, is
   * still outside, turns again and steps back to where it started.
   */
  lemma ReversedFrameFlipsBack(e: EnemyEntity, b: Bounds, dt: real)
    requires TrappedOnXReversed(e, b, dt)
    ensures var next := ReversedFrame(e, b, dt);
      TrappedOnXReversed(next, b, dt) && !InBounds(next.translation, b) && ReversedFrame(next, b, dt) == e
  {
    var t, d := e.translation, e.direction;
    var step := d.x * ENEMY_SPEED * dt;
    var turned := TurnedEnemy(e, b);
    assert turned == EnemyEntity(t, Vec2(-d.x, 0.0));
    assert (-d.x) * ENEMY_SPEED * dt == -step;
    var next := MovedEnemy(turned, dt);
    assert next.translation == Vec3(t.x - step, t.y, t.z);
    assert next == EnemyEntity(Vec3(t.x - step, t.y, t.z), Vec2(-d.x, 0.0));
    var turnedAgain := TurnedEnemy(next, b);
    assert turnedAgain == EnemyEntity(Vec3(t.x - step, t.y, t.z), Vec2(d.x, 0.0));
    assert MovedEnemy(turnedAgain, dt).translation == Vec3(t.x, t.y, t.z);
  }

  /** So in that order too, with a constant frame time, a trapped enemy never gets back in. */
  lemma {:induction false} ReversedFramesTrapEnemy(e: EnemyEntity, b: Bounds, dt: real, dts: seq<real>)
    requires TrappedOnXReversed(e, b, dt) && ConstantFrameTime(dts, dt)
    ensures ReversedFrames(e, b, dts) == if |dts| % 2 == 0 then e else ReversedFrame(e, b, dt)
    ensures !InBounds(ReversedFrames(e, b, dts).translation, b)
    decreases |dts|
  {
    if dts != [] {
      ReversedFrameFlipsBack(e, b, dt);
      assert ConstantFrameTime(dts[1..], dt) by {
        forall i | 0 <= i < |dts| - 1 ensures dts[1..][i] == dt {
          assert dts[1..][i] == dts[i + 1];
        }
      }
      ReversedFramesTrapEnemy(ReversedFrame(e, b, dt), b, dt, dts[1..]);
    }
  }

  /**
   * The enemy at (2, 300) heading right is trapped in the other order as
   * well: it turns left, steps to x = 0, turns right and steps back to x = 2.
   */
  lemma TrappedStartNeverReturnsReversed(dts: seq<real>)
    requires ConstantFrameTime(dts, 0.01)
    ensures !InBounds(ReversedFrames(TrappedStart(), Inset(Window(800.0, 600.0)), dts).translation,
                      Inset(Window(800.0, 600.0)))
  {
    var b := Inset(Window(800.0, 600.0));
    assert 2.0 - 1.0 * ENEMY_SPEED * 0.01 == 0.0;
    assert TrappedOnXReversed(TrappedStart(), b, 0.01);
    ReversedFramesTrapEnemy(TrappedStart(), b, 0.01, dts);
  }

  /** With confinement after the direction update, the same enemy is inside after one frame. */
  lemma CorrectedFrameReleasesEnemy()
    ensures CorrectedFrame(TrappedStart(), Inset(Window(800.0, 600.0)), 0.01)
         == EnemyEntity(Vec3(16.0, 300.0, 0.0), Vec2(-1.0, 0.0))
  {
  }

  // ---- Scenarios ----

  /**
   * An enemy at (790, 300) heading (1, 0), one frame of 0.1 s in an 800x600
   * window: it moves to x = 810, its heading turns to -1 and the clamp puts
   * it at x = 784.
   */
  method BounceScenario() returns (movedX: real, headingX: real, confinedX: real)
    ensures movedX == 810.0 && headingX == -1.0 && confinedX == 784.0
  {
    var window := Window(800.0, 600.0);
    var enemies := new EnemyEntity[] [EnemyEntity(Vec3(790.0, 300.0, 0.0), Vec2(1.0, 0.0))];
    EnemyMovement(enemies, 0.1);
    movedX := enemies[0].translation.x;
    UpdateEnemyDirection(enemies, window);
    headingX := enemies[0].direction.x;
    ConfineEnemy(enemies, window);
    confinedX := enemies[0].translation.x;
  }

  lemma RightKeyStep(normalizeOrZero: Vec3 -> Vec3)
    requires normalizeOrZero(Vec3(1.0, 0.0, 0.0)) == Vec3(1.0, 0.0, 0.0)
    ensures Confined(Displaced(PlayerSpawnTranslation(Window(800.0, 600.0)), normalizeOrZero(PressedDirection({Right})), PLAYER_SPEED, 0.1),
                     Inset(Window(800.0, 600.0)))
         == Vec3(450.0, 300.0, 0.0)
  {
    assert PressedDirection({Right}) == Vec3(1.0, 0.0, 0.0) by {
      assert HeldRight({Right}) && !HeldLeft({Right}) && !HeldUp({Right}) && !HeldDown({Right});
    }
    assert Displaced(Vec3(400.0, 300.0, 0.0), Vec3(1.0, 0.0, 0.0), PLAYER_SPEED, 0.1) == Vec3(450.0, 300.0, 0.0);
  }

  /**
   * The player spawned at the centre of an 800x600 window, "right" held for
   * one frame of 0.1 s: it ends at (450, 300), which the clamp leaves alone.
   * normalize_or_zero keeps a vector of length one as it is.
   */
  method RightKeyScenario(normalizeOrZero: Vec3 -> Vec3) returns (translation: Vec3)
    requires normalizeOrZero(Vec3(1.0, 0.0, 0.0)) == Vec3(1.0, 0.0, 0.0)
    ensures translation == Vec3(450.0, 300.0, 0.0)
  {
    var window := Window(800.0, 600.0);
    var player := new Transform(PlayerSpawnTranslation(window));
    RightKeyStep(normalizeOrZero);
    PlayerUpdate(player, {Right}, 0.1, normalizeOrZero, window);
    translation := player.translation;
  }
}

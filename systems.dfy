/**
 * The scene's systems.  An engine query over enemies is an array of
 * EnemyEntity records updated in place; the optional single player is a
 * Transform object that may be absent (null).  The window and the frame
 * time are parameters.
 */
module Systems {
  import opened Scene

  /** The Transform component of the player entity. */
  class Transform {
    var translation: Vec3

    constructor (t: Vec3)
      ensures translation == t
    {
      translation := t;
    }
  }

  /**
   * The clamp as confine_player and confine_enemy write it: a copy of the
   * translation is adjusted branch by branch.  The y test reads the
   * unmodified original, which equals the copy's y at that point.
   */
  method ClampTranslation(original: Vec3, b: Bounds) returns (translation: Vec3)
    ensures translation == Confined(original, b)
  {
    translation := original;
    if translation.x < b.xMin {
      translation := translation.(x := b.xMin);
    } else if translation.x > b.xMax {
      translation := translation.(x := b.xMax);
    }
    if original.y < b.yMin {
      translation := translation.(y := b.yMin);
    } else if translation.y > b.yMax {
      translation := translation.(y := b.yMax);
    }
  }

  /** confine_player: no player means nothing happens. */
  method ConfinePlayer(player: Transform?, window: Window)
    modifies player
    ensures player != null ==> player.translation == Confined(old(player.translation), Inset(window))
  {
    if player != null {
      var translation := ClampTranslation(player.translation, Inset(window));
      player.translation := translation;
    }
  }

  /**
   * The direction player_movement accumulates from the held keys: one
   * `+=` of a unit step per key pair, written out per component.
   */
  method KeyDirection(pressed: set<Key>) returns (direction: Vec3)
    ensures direction == PressedDirection(pressed)
  {
    direction := Vec3(0.0, 0.0, 0.0);
    if Left in pressed || A in pressed {
      direction := Vec3(direction.x + -1.0, direction.y + 0.0, direction.z + 0.0);
    }
    if Right in pressed || D in pressed {
      direction := Vec3(direction.x + 1.0, direction.y + 0.0, direction.z + 0.0);
    }
    if Up in pressed || W in pressed {
      direction := Vec3(direction.x + 0.0, direction.y + 1.0, direction.z + 0.0);
    }
    if Down in pressed || S in pressed {
      direction := Vec3(direction.x + 0.0, direction.y + -1.0, direction.z + 0.0);
    }
  }

  /**
   * player_movement.  `normalizeOrZero` stands for the vector library's
   * normalize_or_zero, which this model does not compute.
   */
  method PlayerMovement(player: Transform?, pressed: set<Key>, dt: real, normalizeOrZero: Vec3 -> Vec3)
    modifies player
    ensures player != null ==>
      player.translation == Displaced(old(player.translation), normalizeOrZero(PressedDirection(pressed)), PLAYER_SPEED, dt)
  {
    if player != null {
      var direction := KeyDirection(pressed);
      direction := normalizeOrZero(direction);
      player.translation := Displaced(player.translation, direction, PLAYER_SPEED, dt);
    }
  }

  /** enemy_movement: every enemy moves along its heading; headings stay as they are. */
  method EnemyMovement(enemies: array<EnemyEntity>, dt: real)
    modifies enemies
    ensures forall i :: 0 <= i < enemies.Length ==> enemies[i] == MovedEnemy(old(enemies[i]), dt)
  {
    for i := 0 to enemies.Length
      invariant forall k :: 0 <= k < i ==> enemies[k] == MovedEnemy(old(enemies[k]), dt)
      invariant forall k :: i <= k < enemies.Length ==> enemies[k] == old(enemies[k])
    {
      var e := enemies[i];
      var direction := Lift(e.direction);
      enemies[i] := e.(translation := Displaced(e.translation, direction, ENEMY_SPEED, dt));
    }
  }

  /** update_enemy_direction: headings flip per axis; translations stay as they are. */
  method UpdateEnemyDirection(enemies: array<EnemyEntity>, window: Window)
    modifies enemies
    ensures forall i :: 0 <= i < enemies.Length ==> enemies[i] == TurnedEnemy(old(enemies[i]), Inset(window))
  {
    var b := Inset(window);
    for i := 0 to enemies.Length
      invariant forall k :: 0 <= k < i ==> enemies[k] == TurnedEnemy(old(enemies[k]), b)
      invariant forall k :: i <= k < enemies.Length ==> enemies[k] == old(enemies[k])
    {
      var e := enemies[i];
      var direction := e.direction;
      if e.translation.x < b.xMin || e.translation.x > b.xMax {
        direction := direction.(x := direction.x * -1.0);
      }
      if e.translation.y < b.yMin || e.translation.y > b.yMax {
        direction := direction.(y := direction.y * -1.0);
      }
      enemies[i] := e.(direction := direction);
    }
  }

  /** confine_enemy: every enemy is clamped into the player-sized inset; headings stay as they are. */
  method ConfineEnemy(enemies: array<EnemyEntity>, window: Window)
    modifies enemies
    ensures forall i :: 0 <= i < enemies.Length ==> enemies[i] == ConfinedEnemy(old(enemies[i]), Inset(window))
  {
    var b := Inset(window);
    for i := 0 to enemies.Length
      invariant forall k :: 0 <= k < i ==> enemies[k] == ConfinedEnemy(old(enemies[k]), b)
      invariant forall k :: i <= k < enemies.Length ==> enemies[k] == old(enemies[k])
    {
      var translation := ClampTranslation(enemies[i].translation, b);
      enemies[i] := enemies[i].(translation := translation);
    }
  }

  /**
   * The position and heading arithmetic of spawn_enemies: one enemy per
   * iteration of `0..NUMBER_OF_ENEMIES`, in the order they are spawned.
   */
  method SpawnEnemies(window: Window, draws: seq<SpawnDraw>) returns (spawned: seq<EnemyEntity>)
    requires |draws| == NUMBER_OF_ENEMIES
    requires forall i :: 0 <= i < |draws| ==> UnitInterval(draws[i].u) && UnitInterval(draws[i].v)
    ensures |spawned| == NUMBER_OF_ENEMIES
    ensures forall i :: 0 <= i < |spawned| ==>
      spawned[i].translation == Vec3(draws[i].u * window.width, draws[i].v * window.height, 0.0)
    ensures forall i :: 0 <= i < |spawned| ==> spawned[i].direction == draws[i].heading
    ensures window.width > 0.0 && window.height > 0.0 ==>
      forall i :: 0 <= i < |spawned| ==> InWindow(spawned[i].translation, window)
  {
    spawned := [];
    for i := 0 to NUMBER_OF_ENEMIES
      invariant |spawned| == i
      invariant forall k :: 0 <= k < i ==> spawned[k] == SpawnedEnemy(draws[k], window)
    {
      var randomX := draws[i].u * window.width;
      var randomY := draws[i].v * window.height;
      spawned := spawned + [EnemyEntity(Vec3(randomX, randomY, 0.0), draws[i].heading)];
    }
  }

  /** The enemy systems of one frame in the order the program registers them. */
  method EnemyUpdateAsScheduled(enemies: array<EnemyEntity>, window: Window, dt: real)
    modifies enemies
    ensures forall i :: 0 <= i < enemies.Length ==> enemies[i] == ScheduledFrame(old(enemies[i]), Inset(window), dt)
  {
    EnemyMovement(enemies, dt);
    UpdateEnemyDirection(enemies, window);
  }

  /** The enemy systems of one frame with confine_enemy run after the direction update. */
  method EnemyUpdate(enemies: array<EnemyEntity>, window: Window, dt: real)
    modifies enemies
    ensures forall i :: 0 <= i < enemies.Length ==> enemies[i] == CorrectedFrame(old(enemies[i]), Inset(window), dt)
    ensures window.width >= PLAYER_SPRITE_SIZE && window.height >= PLAYER_SPRITE_SIZE ==>
      forall i :: 0 <= i < enemies.Length ==> InBounds(enemies[i].translation, Inset(window))
  {
    EnemyUpdateAsScheduled(enemies, window, dt);
    ConfineEnemy(enemies, window);
  }

  /** The player systems of one frame: movement, then confinement. */
  method PlayerUpdate(player: Transform?, pressed: set<Key>, dt: real, normalizeOrZero: Vec3 -> Vec3, window: Window)
    modifies player
    ensures player != null ==>
      player.translation == Confined(Displaced(old(player.translation), normalizeOrZero(PressedDirection(pressed)), PLAYER_SPEED, dt), Inset(window))
    ensures player != null && window.width >= PLAYER_SPRITE_SIZE && window.height >= PLAYER_SPRITE_SIZE ==>
      InBounds(player.translation, Inset(window))
  {
    PlayerMovement(player, pressed, dt, normalizeOrZero);
    ConfinePlayer(player, window);
  }
}

# Puffy the universe decimator: boundary arithmetic of the prototype scene

The first prototype scene of this repository is a Bevy game with one player
sprite and a batch of six enemy sprites. Its own logic is a handful of
per-frame systems:

- `confine_player` clamps the player into the window, inset by half a sprite.
- `player_movement` turns the held arrow/WASD keys into a direction and moves the player.
- `spawn_enemies` scatters six enemies over the window.
- `enemy_movement` moves every enemy along its heading.
- `update_enemy_direction` flips an enemy's heading on each axis on which it is outside the inset box.
- `confine_enemy` clamps every enemy into the inset box.

This project models those systems in Dafny and proves what they guarantee.

- `scene.dfy`, module `Scene`: the program's constants, its vectors, the window and the inset box. It also holds the pure arithmetic each system performs: the per-axis clamp, the heading reflection, the movement step, the key direction, the spawn position and the enemy frame compositions.
- `systems.dfy`, module `Systems`: the systems themselves, as imperative methods. An engine query over enemies is an `array<EnemyEntity>` updated in place, one loop per system. The optional single player is a `Transform?` object whose `translation` field is updated in place; `null` means there is no player entity. Every method is proved against the functions of `Scene`.
- `properties.dfy`, module `Properties`: lemmas about those functions and scenario methods. The lemmas cover bounds, idempotence, per-axis independence, sign flips, the inverse of a step and invariants over many frames. The scenario methods call the systems on concrete data and prove the outcome.

Coordinates are `real`. The window is a `(width, height)` parameter and the frame time a `dt` parameter. The random draws of `spawn_enemies` are a parameter constrained to `[0, 1)`.

The code defines `confine_enemy` (main.rs:196-228) with the same box as the other enemy system, but never adds it to the `Update` systems (main.rs:238-243). The model follows the code and keeps both frames. `Scene.ScheduledFrame` and `Systems.EnemyUpdateAsScheduled` model the frame as registered. `Scene.ReversedFrame` models the same two systems in the other order, which the engine may equally pick. `Scene.CorrectedFrame` and `Systems.EnemyUpdate` model the frame with confinement added (see Findings).

All enemy bounds use `PLAYER_SPRITE_SIZE`, never `ENEMY_SPRITE_SIZE`. The model keeps this: `Scene.Inset` is the one box every system uses. Both constants are 32, so the box would be the same either way.

## Model

| member | source | states |
|---|---|---|
| Scene.InsetFor | Dedededededestruction/puffy-the-universe-decimator/src/main.rs:65-70 | the inset box is non-empty on an axis exactly when the window is at least one sprite long on that axis; it is symmetric in the window |
| Scene.Inset | Dedededededestruction/puffy-the-universe-decimator/src/main.rs:176-181 | the box all systems use is `[16, width - 16] x [16, height - 16]`, from half of PLAYER_SPRITE_SIZE |
| Scene.ClampAxis | Dedededededestruction/puffy-the-universe-decimator/src/main.rs:74-79 | the result lies in a non-empty range; the input is kept exactly when it lies in the range; otherwise the result is one of the range's ends |
| Scene.Confined | Dedededededestruction/puffy-the-universe-decimator/src/main.rs:72-88 | z is never touched; the result is in a non-empty box; an in-box translation is unchanged; each axis changes exactly when it is outside its range |
| Scene.Reflected | Dedededededestruction/puffy-the-universe-decimator/src/main.rs:186-191 | x is negated exactly when x is outside `[xMin, xMax]`, y independently the same way; each component's square is preserved; an in-box enemy keeps its heading |
| Scene.Displaced | Dedededededestruction/puffy-the-universe-decimator/src/main.rs:166 | a direction with z = 0 keeps z; zero speed, zero time or a zero direction leave the translation unchanged |
| Scene.MovedEnemy | Dedededededestruction/puffy-the-universe-decimator/src/main.rs:163-167 | movement leaves the heading and z unchanged, and does nothing when dt = 0 |
| Scene.TurnedEnemy | Dedededededestruction/puffy-the-universe-decimator/src/main.rs:183-193 | the direction update never changes the translation, preserves the heading's length and leaves an in-box enemy unchanged |
| Scene.ConfinedEnemy | Dedededededestruction/puffy-the-universe-decimator/src/main.rs:209-227 | confinement never changes the heading, puts the enemy in a non-empty box and leaves an in-box enemy unchanged |
| Scene.ScheduledFrame | Dedededededestruction/puffy-the-universe-decimator/src/main.rs:238-243 | a frame as registered (movement, then direction update) preserves the heading's length |
| Scene.ReversedFrame | Dedededededestruction/puffy-the-universe-decimator/src/main.rs:241-242 | a frame with the two registered enemy systems in the other order (direction update, then movement) preserves the heading's length |
| Scene.CorrectedFrame | Dedededededestruction/puffy-the-universe-decimator/src/main.rs:196-228 | a frame that ends with confine_enemy leaves the enemy inside a non-empty box, keeps the heading's length and keeps z |
| Scene.PressedDirection | Dedededededestruction/puffy-the-universe-decimator/src/main.rs:101-117 | the raw direction has z = 0 and each component in {-1, 0, 1}; an axis is 0 exactly when both or neither of its keys are held, and +1 exactly when only its positive key is held |
| Scene.PlayerSpawnTranslation | Dedededededestruction/puffy-the-universe-decimator/src/main.rs:45-49 | the player starts at z = 0, inside the inset box whenever the window is at least one sprite wide and high |
| Scene.SpawnedEnemy | Dedededededestruction/puffy-the-universe-decimator/src/main.rs:137-152 | with draws in [0, 1) and a non-degenerate window, the spawned enemy lies in `[0, width) x [0, height)` at z = 0 and carries the drawn heading |
| Systems.ClampTranslation | Dedededededestruction/puffy-the-universe-decimator/src/main.rs:72-88 | the branch-by-branch clamp of a mutable copy computes `Confined` |
| Systems.ConfinePlayer | Dedededededestruction/puffy-the-universe-decimator/src/main.rs:58-92 | the player's new translation is the confined old one; with no player nothing changes |
| Systems.KeyDirection | Dedededededestruction/puffy-the-universe-decimator/src/main.rs:101-117 | the step-by-step sum of unit steps for the held keys equals `PressedDirection` |
| Systems.PlayerMovement | Dedededededestruction/puffy-the-universe-decimator/src/main.rs:94-125 | the player moves by `normalize_or_zero(raw direction) * PLAYER_SPEED * dt`; with no player nothing changes |
| Systems.EnemyMovement | Dedededededestruction/puffy-the-universe-decimator/src/main.rs:159-168 | every enemy, and only the enemies' translations, move by `direction * ENEMY_SPEED * dt` |
| Systems.UpdateEnemyDirection | Dedededededestruction/puffy-the-universe-decimator/src/main.rs:170-194 | every enemy's heading becomes its reflection at its translation; translations stay as they are |
| Systems.ConfineEnemy | Dedededededestruction/puffy-the-universe-decimator/src/main.rs:196-228 | every enemy's translation is clamped into the player-sized box; headings and the number of enemies stay as they are |
| Systems.SpawnEnemies | Dedededededestruction/puffy-the-universe-decimator/src/main.rs:127-157 | exactly NUMBER_OF_ENEMIES (6) enemies, the i-th at `(u_i * width, v_i * height, 0)` with the i-th drawn heading, all in `[0, width) x [0, height)` for a non-degenerate window |
| Systems.EnemyUpdateAsScheduled | Dedededededestruction/puffy-the-universe-decimator/src/main.rs:238-243 | running enemy_movement then update_enemy_direction applies `ScheduledFrame` to every enemy |
| Systems.EnemyUpdate | Dedededededestruction/puffy-the-universe-decimator/src/main.rs:196-228 | adding confine_enemy after the direction update applies `CorrectedFrame` to every enemy and leaves all of them inside the box |
| Systems.PlayerUpdate | Dedededededestruction/puffy-the-universe-decimator/src/main.rs:239-240 | player_movement then confine_player leaves the player inside the box whenever the window is at least one sprite wide and high |
| Properties.ConfinedWithinWindow | Dedededededestruction/puffy-the-universe-decimator/src/main.rs:65-86 | for width, height >= 32 the confined translation satisfies `16 <= x <= width - 16` and `16 <= y <= height - 16`, with z unchanged |
| Properties.ConfineIdempotent | Dedededededestruction/puffy-the-universe-decimator/src/main.rs:72-88 | confining twice equals confining once when the box is non-empty |
| Properties.ConfineNotIdempotentInNarrowWindow | Dedededededestruction/puffy-the-universe-decimator/src/main.rs:74-79 | in a window 20 wide (xMin 16 > xMax 4) the clamp sends 16 to 4 and 4 back to 16 |
| Properties.ConfinedPerAxis | Dedededededestruction/puffy-the-universe-decimator/src/main.rs:74-86 | each output axis depends only on the same input axis |
| Properties.ClampIsNearest | Dedededededestruction/puffy-the-universe-decimator/src/main.rs:74-79 | the clamped value is at least as close to the input as any point of the range |
| Properties.ReflectedTwice | Dedededededestruction/puffy-the-universe-decimator/src/main.rs:186-191 | reflecting twice at the same translation restores the heading |
| Properties.ReflectionTurnsBack | Dedededededestruction/puffy-the-universe-decimator/src/main.rs:186-191 | a heading pointing further out of the box is turned back in on that axis |
| Properties.ReflectionTurnsInwardHeadingOut | Dedededededestruction/puffy-the-universe-decimator/src/main.rs:186-187 | a heading already pointing back in is turned outward, because the test ignores the heading |
| Properties.DisplacedUndone | Dedededededestruction/puffy-the-universe-decimator/src/main.rs:166 | a step for `dt` followed by a step for `-dt` returns to the start |
| Properties.DisplacedAdditive | Dedededededestruction/puffy-the-universe-decimator/src/main.rs:166 | steps of `dt1` and `dt2` along one direction equal one step of `dt1 + dt2` |
| Properties.NoNetKeyNoMovement | Dedededededestruction/puffy-the-universe-decimator/src/main.rs:101-121 | with no net key on either axis, and normalize_or_zero of zero being zero, the player does not move |
| Properties.MovedEnemyStep | Dedededededestruction/puffy-the-universe-decimator/src/main.rs:163-167 | an enemy step adds `direction * ENEMY_SPEED * dt` on x and y, keeps z and keeps the heading |
| Properties.FramesKeepSpeed | Dedededededestruction/puffy-the-universe-decimator/src/main.rs:163-193 | over any sequence of frames, with or without confinement, the heading's length never changes |
| Properties.CorrectedFramesStayInside | Dedededededestruction/puffy-the-universe-decimator/src/main.rs:196-228 | with confine_enemy in every frame, an enemy is inside a non-empty box after every frame |
| Properties.ScheduledFrameFlipsBack | Dedededededestruction/puffy-the-universe-decimator/src/main.rs:238-243 | in the frame as registered, an enemy outside on x whose step keeps it outside comes back to the same state after two frames, staying outside |
| Properties.ScheduledFramesTrapEnemy | Dedededededestruction/puffy-the-universe-decimator/src/main.rs:238-243 | with a constant frame time such an enemy alternates between two states outside the box forever |
| Properties.TrappedStartNeverReturns | Dedededededestruction/puffy-the-universe-decimator/src/main.rs:238-243 | an enemy at (2, 300) heading (1, 0) in an 800x600 window with 0.01 s frames is outside the box after every number of frames |
| Properties.ReversedFrameFlipsBack | Dedededededestruction/puffy-the-universe-decimator/src/main.rs:241-242 | with the direction update run first, an enemy outside on x whose reversed step keeps it outside comes back to the same state after two frames, staying outside |
| Properties.ReversedFramesTrapEnemy | Dedededededestruction/puffy-the-universe-decimator/src/main.rs:241-242 | in that order too, with a constant frame time such an enemy alternates between two states outside the box forever |
| Properties.TrappedStartNeverReturnsReversed | Dedededededestruction/puffy-the-universe-decimator/src/main.rs:238-243 | in that order the enemy at (2, 300) heading (1, 0), 800x600 window and 0.01 s frames moves between x = 2 and x = 0 and is outside the box after every number of frames |
| Properties.CorrectedFrameReleasesEnemy | Dedededededestruction/puffy-the-universe-decimator/src/main.rs:196-228 | the same enemy with confinement in the frame is at (16, 300) after one frame |
| Properties.BounceScenario | Dedededededestruction/puffy-the-universe-decimator/src/main.rs:163-227 | an enemy at (790, 300) heading (1, 0), dt 0.1, window 800 wide moves to x = 810, turns to x-heading -1 and is clamped to x = 784 |
| Properties.RightKeyStep | Dedededededestruction/puffy-the-universe-decimator/src/main.rs:101-121 | for the player at the centre of an 800x600 window, a frame with only "right" held and dt 0.1 gives (450, 300) |
| Properties.RightKeyScenario | Dedededededestruction/puffy-the-universe-decimator/src/main.rs:94-125 | the spawned player, after one frame of both player systems with "right" held for 0.1 s, is at (450, 300) and is not moved by confinement |

## Left out

- Engine plumbing is not modelled: `App`, plugins, the schedule builder in `main`, `Commands::spawn`, `Camera2dBundle`, `SpriteBundle` and asset loading. `spawn_camera` is not modelled at all; `spawn_player` is modelled only for the translation it picks.
- The window lookup `get_single().unwrap()` aborts the program when there is no primary window. The model takes the window as a parameter, so that abort path is not represented.
- Bevy's ordering of systems is not modelled in general. The systems in one `add_systems` tuple carry no ordering constraint. The model composes them in the order they are listed; for the two enemy systems it also models the other order (`Scene.ReversedFrame`).
- Systems.PlayerMovement: normalize_or_zero needs a square root. It is a function-typed parameter, so the model does not state that the normalised direction has length 0 or 1.
- Systems.SpawnEnemies: the heading drawn for each enemy is `Vec2::new(random, random).normalize()`. The model takes an arbitrary caller-supplied heading in the draws instead. It does not state unit length, nor that both components are never negative (each is a draw in [0, 1) before normalisation), and it does not cover the zero draw whose normalisation is not a number.
- f32 rounding, NaN and infinities are not modelled; coordinates are reals.
- The random draws are parameters that the caller supplies.
- The second program (`dededededestruction/src/main.rs`) is not modelled. It holds only declarative level-plugin, resource and entity registration.

## Findings

| source | as written | input that shows it | evidently intended | confidence | as-written member | corrected member |
|---|---|---|---|---|---|---|
| Dedededededestruction/puffy-the-universe-decimator/src/main.rs:238-243 | the Update systems run enemy_movement and update_enemy_direction but not confine_enemy, so an enemy outside the box flips its heading every frame while its step is too short to get back in | enemy at (2, 300) heading (1, 0), window 800x600, every frame 0.01 s: it moves between x = 2 and x = 4 forever as listed, and between x = 2 and x = 0 with the two systems in the other order (Properties.TrappedStartNeverReturnsReversed) | confine_enemy (lines 196-228) runs after the direction update, so every enemy is back inside the box after each frame | medium, not executed | Properties.TrappedStartNeverReturns | Properties.CorrectedFramesStayInside |

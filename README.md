# Doremon Jump: the world and its platforms

Doremon Jump is a vertical-jumping game built on libGDX. This project models the
per-frame game logic of its `World` (the platform ladder, the spring, the scrolling
pass, collisions, the game-over descent and the load-time setup) and of its
`Platform` entity (spawning, horizontal movement, cracking, the score-dependent
choice of platform type and the choice of sprite). It proves properties of that
model in Dafny.

The model follows the code's own shape:

- `Platform` and `World` are classes whose methods update their fields in place.
  Each method is proved against a value-level specification function over
  `PView` / `WorldView` snapshots.
- The static `POSITION` and `BROKEN` counters of `Platform` are fields of one shared
  `PlatformStatics` object. Every method that touches them names that object in its
  `modifies` clause.
- `Math.random()` becomes a `real` parameter in `[0, 1)` (predicate `IsRandom`). The
  scrolling pass takes one value per platform (`rolls[k]`), which is used only when
  platform `k` is recycled.
- Positions and velocities are `real`.

The modules are:

- `Entities` (`entities.dfy`): the player, spring, base and breaking-platform
  overlay, keeping only the fields `World` reads and writes.
- `Platforms` (`platform.dfy`): the platform constants, the type tables and the
  `BROKEN` toggle, movement and cracking, sprite selection, and the `Platform`
  class.
- `WorldSpec` (`world_spec.dfy`): the value-level specification of every `World`
  pass, plus the lemmas about it (validity, monotonicity, staying on screen).
- `Worlds` (`world.dfy`): the `World` class. Each of its methods ensures that its
  new state is the corresponding `WorldSpec` function of its old state.

Type codes: 0 static, 1 moving, 2 breakable, 3 spring anchor. Screen coordinates
grow downward: a larger `y` is lower on the screen.

### Behaviour of the code worth knowing

- **The 5000+ tier can still give a static platform.** Its table holds only 1, 2
  and 3. But when a breakable roll arrives while the `BROKEN` toggle is set,
  `generateType` downgrades it to 0, so a score of 5000 or more can still produce
  a static platform. `HighScoreStaticOnlyByDowngrade` states exactly when this
  happens (from score 1000 on).
- **The toggle does not limit breakable platforms to one.** It only alternates.
  It does not record whether the platform that last kept a breakable roll is still
  on screen. Three breakable rolls in a row therefore keep the first and the third
  (`ToggleAlternates`).

## Model

| member | source | states |
|---|---|---|
| Platforms.RandomIndex | core/src/dev/doremon/entities/Platform.java:90 | `(int)(r * n)` for `r` in [0,1) is a valid index of an `n`-entry table: the whole part of `r * n` |
| Platforms.InitialType | core/src/dev/doremon/entities/Platform.java:32 | a new platform's type is static or moving, and it is moving exactly when the random value is at least one half |
| Platforms.SpawnX | core/src/dev/doremon/entities/Platform.java:21-25 | on a screen at least a platform wide, a spawned platform lies wholly inside the screen |
| Platforms.RungIs | core/src/dev/doremon/entities/Platform.java:30 | after `k` constructions the shared spawn height has grown by exactly `k` steps |
| Platforms.RolledType | core/src/dev/doremon/entities/Platform.java:72-90 | the entry drawn from the score's table is one of that tier's type values |
| Platforms.TypeRoll | core/src/dev/doremon/entities/Platform.java:72-98 | the final type is in 0..3; a breakable result only comes from a breakable roll while the toggle is clear, and it sets the toggle |
| Platforms.TableValues | core/src/dev/doremon/entities/Platform.java:76-88 | each score tier's table holds exactly that tier's set of types (0 only below 1000, 3 only from 2000, 2 only from 500) |
| Platforms.RollSelects | core/src/dev/doremon/entities/Platform.java:90 | every random value in the `i`-th of `n` equal slices of [0,1) picks table entry `i` |
| Platforms.TierReachable | core/src/dev/doremon/entities/Platform.java:76-90 | every type value of a tier is drawn by some random value |
| Platforms.LowScoreIsStatic | core/src/dev/doremon/entities/Platform.java:86-88 | below score 50 every recycled platform is static and the toggle is untouched |
| Platforms.BrokenToggle | core/src/dev/doremon/entities/Platform.java:91-96 | a breakable roll flips the toggle and is kept only when the toggle was clear (downgraded to static otherwise); any other roll is kept and leaves the toggle alone |
| Platforms.ToggleAlternates | core/src/dev/doremon/entities/Platform.java:91-96 | three breakable rolls in a row from a clear toggle give breakable, static, breakable |
| Platforms.HighScoreStaticOnlyByDowngrade | core/src/dev/doremon/entities/Platform.java:76-96 | from score 1000 on a platform is static exactly when a breakable roll meets a set toggle |
| Platforms.MoveStep | core/src/dev/doremon/entities/Platform.java:53-60 | only moving and breakable platforms move; they keep their speed, reverse it exactly when off the screen edge, and advance by the new velocity; nothing but `x` and `vx` changes |
| Platforms.MoveStepKeepsBand | core/src/dev/doremon/entities/Platform.java:53-60 | a platform within one step of the screen edges, and still heading outward when past an edge (so that its next move reverses it), stays so after a move |
| Platforms.SpawnInBand | core/src/dev/doremon/entities/Platform.java:21-33 | a freshly spawned platform is within that band |
| Platforms.CrackStep | core/src/dev/doremon/entities/Platform.java:62-70 | an armed, triggered platform with the overlay hidden moves the overlay onto itself, shows it and disarms; otherwise nothing changes; afterwards no crack can fire again |
| Platforms.CurrentFrame | core/src/dev/doremon/entities/Platform.java:100-121 | no sprite exactly for a triggered breakable or spring-anchor platform; otherwise the sprite of its type, and of type 0 for an unknown type |
| Platforms.Platform.constructor | core/src/dev/doremon/entities/Platform.java:27-33 | the new platform has the given position, speed 3, a random static-or-moving type, and the shared spawn height has grown by one step |
| Platforms.Platform.Generate | core/src/dev/doremon/entities/Platform.java:21-25 | the platform is spawned at a random x inside the screen (when the screen is at least a platform wide) at the current shared spawn height, which then grows by one step |
| Platforms.Platform.MoveAround | core/src/dev/doremon/entities/Platform.java:53-60 | the platform's new state is `MoveStep` of its old one |
| Platforms.Platform.CrackUp | core/src/dev/doremon/entities/Platform.java:62-70 | the platform and overlay are updated as `CrackStep` says |
| Platforms.Platform.Tick | core/src/dev/doremon/entities/Platform.java:36-39 | a move followed by a crack check |
| Platforms.Platform.GenerateType | core/src/dev/doremon/entities/Platform.java:72-98 | the platform's type and the shared toggle become `TypeRoll` of the score, the random value and the old toggle; the type is returned |
| WorldSpec.TickPlatformsSpec | core/src/dev/doremon/worlds/World.java:47-49 | each platform in list order is moved, or moved and disarmed with the shared overlay placed on it; the first platform that can crack after its move does crack, at most one cracks per frame, and the overlay changes exactly when one does |
| WorldSpec.AttachSpring | core/src/dev/doremon/worlds/World.java:86-103 | on a non-static first platform the spring is centred on top of it, and it shows exactly when it is not below the cut-off height and the platform is untriggered (re-armed when hidden); on a static one only its coordinates are negated |
| WorldSpec.AttachSpringIdempotent | core/src/dev/doremon/worlds/World.java:86-97 | placing the spring twice on a non-static platform is the same as placing it once |
| WorldSpec.RemovalUndoesItself | core/src/dev/doremon/worlds/World.java:98-102 | on a static platform, two passes restore the spring, because the coordinate negation is its own inverse |
| WorldSpec.ScrollPassAt | core/src/dev/doremon/worlds/World.java:110-122 | each platform keeps its x, speed and arming, moves down by the player's upward speed, and once past the bottom moves up one screen height with its flag cleared and a freshly rolled type; unreached platforms are untouched |
| WorldSpec.Scroll | core/src/dev/doremon/worlds/World.java:105-127 | with the player in the lower half nothing changes; otherwise only platforms, toggle and base move, and the score goes up by exactly one |
| WorldSpec.CollideNoStop | core/src/dev/doremon/worlds/World.java:132-154 | when no landing ends the loop, the platforms are unchanged and every landing grants exactly one jump |
| WorldSpec.CollideStopsAt | core/src/dev/doremon/worlds/World.java:132-154 | the first loop-ending landing triggers that platform, grants the earlier landings' jumps plus one for a spring anchor, and ends the pass |
| WorldSpec.CollideWhileRising | core/src/dev/doremon/worlds/World.java:133 | while the player is not falling no platform can be landed on |
| WorldSpec.CollideChangesOnlyLandings | core/src/dev/doremon/worlds/World.java:132-154 | a platform changes only when the player lands on it and then only becomes triggered and armed |
| WorldSpec.Collide | core/src/dev/doremon/worlds/World.java:129-166 | collisions only change platforms, the spring and the player's jump counters; jumps never decrease; the spring fires at most once, from unused to used, with exactly one boosted jump |
| WorldSpec.CollideIdleWhenRising | core/src/dev/doremon/worlds/World.java:129-166 | a rising player changes nothing |
| WorldSpec.LandOnBreakable | core/src/dev/doremon/worlds/World.java:140-143 | landing first on an untriggered breakable platform triggers and arms it, grants no jump for it, and skips the spring |
| WorldSpec.LandOnSpringAnchor | core/src/dev/doremon/worlds/World.java:144-148 | landing first on an untriggered spring anchor triggers it and grants exactly one ordinary jump |
| WorldSpec.LandOnTriggered | core/src/dev/doremon/worlds/World.java:149-151 | landing first on a triggered platform changes nothing beyond the earlier landings' jumps |
| WorldSpec.SpringFires | core/src/dev/doremon/worlds/World.java:156-165 | without a loop-ending landing the spring fires and grants a boosted jump exactly when the falling player's feet are inside an unused spring |
| WorldSpec.ShiftedUp | core/src/dev/doremon/worlds/World.java:169-171 | every platform moves up the screen by 20 (y decreases by 20) and nothing else changes |
| WorldSpec.Descend | core/src/dev/doremon/worlds/World.java:174-181 | before the falling phase, a player in the lower half of the screen is always moved up by 20 with speed zero, and only then; otherwise a player in the upper half always enters the falling phase, which starts nowhere else and never ends; otherwise a player below the screen always ends the game, which is reached nowhere else and then stays |
| WorldSpec.GameOverStep | core/src/dev/doremon/worlds/World.java:168-183 | the game-over pass moves the platforms up by 20, sends the base far below the screen (y 10000) and applies `Descend` to the player and the two flags; nothing else changes |
| WorldSpec.GameEndsBelowScreen | core/src/dev/doremon/worlds/World.java:179-181 | a falling player below the screen ends the game |
| WorldSpec.TickKeepsValid | core/src/dev/doremon/worlds/World.java:46-62 | a frame keeps seven platforms with types in 0..3, flags and states in 0..1, and the falling phase in 0..1 |
| WorldSpec.TickIsMonotone | core/src/dev/doremon/worlds/World.java:59-61 | the falling phase and game over never revert, and without death they do not change |
| WorldSpec.TickKeepsBand | core/src/dev/doremon/worlds/World.java:46-62 | on a screen wide enough, platforms that start within one step of the edges stay there frame after frame |
| Worlds.World.constructor | core/src/dev/doremon/worlds/World.java:185-201 | loading builds seven fresh distinct platforms at heights 0, step, 2 step, ..., with random x inside the screen, speed 3 and static-or-moving types; score and falling phase are zero and the game is not over |
| Worlds.World.BuildLadder | core/src/dev/doremon/worlds/World.java:190-193 | the k-th generated platform stands k steps past the shared spawn height, which ends one step past the last platform |
| Worlds.World.PlatformTicks | core/src/dev/doremon/worlds/World.java:47-49 | the platforms and overlay become `TickPlatforms` of the old ones; nothing else changes |
| Worlds.World.TickEach | core/src/dev/doremon/worlds/World.java:47-49 | the loop ticks every platform in list order against the shared overlay: the platforms and overlay become `TickPlatforms` over the whole list |
| Worlds.World.CreateSpring | core/src/dev/doremon/worlds/World.java:86-103 | the spring becomes `AttachSpring` of the first platform; nothing else changes |
| Worlds.World.PlatformScrolling | core/src/dev/doremon/worlds/World.java:105-127 | the world becomes `Scroll` of the old world |
| Worlds.World.ScrollEach | core/src/dev/doremon/worlds/World.java:110-122 | the loop over the platforms (the player's speed, which it reads, does not change within it) leaves platforms and toggle as `ScrollPass` over the whole list |
| Worlds.World.ScrollAt | core/src/dev/doremon/worlds/World.java:111-121 | one loop step changes only platform `i` and the toggle, as `ScrollOne` says |
| Worlds.World.Collides | core/src/dev/doremon/worlds/World.java:129-166 | the world becomes `Collide` of the old world |
| Worlds.World.LandOnPlatforms | core/src/dev/doremon/worlds/World.java:132-154 | the platform loop's result and the new platforms and jump count are those of `CollidePlatforms` |
| Worlds.World.LandOn | core/src/dev/doremon/worlds/World.java:133-153 | one platform check: it stops the loop exactly on a loop-ending landing, triggers the platform then, and grants the matching jumps |
| Worlds.World.SpringCheck | core/src/dev/doremon/worlds/World.java:157-165 | the spring turns used with one boosted jump exactly on a spring hit; the platforms are unchanged |
| Worlds.World.GameOver | core/src/dev/doremon/worlds/World.java:168-183 | the world becomes `GameOverStep` of the old world |
| Worlds.World.ShiftPlatformsUp | core/src/dev/doremon/worlds/World.java:169-171 | the loop moves every platform up by 20: the platforms become `ShiftedUp` of the old ones |
| Worlds.World.Descent | core/src/dev/doremon/worlds/World.java:174-181 | the player, falling phase and game-over flag become `Descend` of the old ones |
| Worlds.World.Step | core/src/dev/doremon/worlds/World.java:46-62 | the frame's passes in the code's order give `TickStep` of the old world |
| Worlds.World.Tick | core/src/dev/doremon/worlds/World.java:46-62 | a frame keeps the world valid, gives `TickStep` of the old world, keeps the falling phase and game over monotone, and, on a screen at least 186 wide, keeps platforms within one step (3) of the screen edges |

## Left out

- Rendering is not modelled: `World.render`, `Platform.render`, the fonts and `Assets` are drawing only.
- `World.dispose` and `Platform.dispose` release resources only.
- The Android and desktop launchers, the screens and `Handler` are not part of this model. The screen width and height are parameters, and `handler.getHeight() / PLATFORM_COUNT` is the parameter `step`, so Handler's integer division is not modelled; nor is the integer halving of the screen height in the scrolling and game-over thresholds, which are exact halves here.
- The player's, base's, spring's and overlay's own `tick` calls in `World.tick` are not modelled: their code is not part of this model, so each frame treats them as leaving their state unchanged.
- `Player.isDead` becomes the `dead` parameter of `World.Tick`, and `setDeadDir` (sprite direction only) is left out.
- `Entities.Player.Jump`, `Entities.Player.JumpHigh`: they count calls only, because the player's jump physics are not part of this model.
- WorldSpec.Collide, WorldSpec.CollidePlatforms, WorldSpec.CollideNoStop, WorldSpec.CollideStopsAt, WorldSpec.SpringFires, WorldSpec.LandOnBreakable, WorldSpec.LandOnSpringAnchor, WorldSpec.LandOnTriggered, Worlds.World.Collides, Worlds.World.LandOnPlatforms, Worlds.World.LandOn: these assume that `jump()` and `jumpHigh()` leave `vy` unchanged, so the later platform checks and the spring check in the same `collides` pass read the pre-jump `vy`. The code re-reads `vy` after each jump (`World.java` lines 133 and 157). If a jump gives the player an upward speed, one landing in the code would stop every further landing and the spring check in that call, while the model can grant an ordinary and a boosted jump in one pass.
- Java `float` rounding: positions and velocities are exact reals.
- The 32-bit `int` score: `score++` wraps at 2^31 − 1 in the code, and a wrapped negative score would fall into the static-only tier; the model's score is an unbounded integer.
- The distribution of `Math.random()`: random values are parameters in [0,1).
- The getters and setters (`setScore`, `setGameOver`, `setPlatformBroken`, `setFlag`, `setState`, `setType` and the like) are plain field accesses. They are used inline.
- The type, flag and state arguments of a `Platform` are not range-checked in the code. `Valid` keeps them in range because every path that writes them does.

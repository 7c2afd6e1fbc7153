# Pierre Penguin — a Dafny model of the player state machine and the scene's contact and spawn logic

This project models the two pieces of logic in the FirstGame side-scroller that are
not engine configuration:

- **The penguin's damage / invulnerability / flapping state machine** (`Player`).
  The state is `health` (starting at 3), `damaged`, `invulnerable`, `flapping`,
  `forwardVelocity` (200, 400 or 0) and the physics category (penguin or
  damagedPenguin). The transitions are `takeDamage`, `die`, `startFlapping`,
  `stopFlapping` and `starPower`. Three more transitions are closures that the
  engine runs when an action sequence reaches them: the start and the end of the
  damage sequence, and the end of the star power-up sequence. The model records
  which of those sequences is running and treats each closure as an explicit
  event. `die` removes all actions, so it cancels any pending closure.
  `PlayerStates` gives every transition as a function on a `PlayerState` value.
  The `Player` class in `PlayerSprite` updates the same fields in place, and
  each of its methods is proved equal to the matching function.
- **The game scene's contact delegate and encounter scheduler** (`GameScene`).
  `PhysicsCategories` holds the one-bit 32-bit category masks. `Contacts`
  holds the pure selection done by `didBegin`: which body is the penguin (an AND
  with the combined penguin mask), how the other body's mask is classified, and
  what that does to the player. `Spawning` holds the spawn step of
  `didSimulatePhysics`. When the player passes `nextEncounterSpawnPosition`, an
  encounter is placed there and the position moves 1200 forward. On a roll of 0,
  if the star is more than 1200 away, the star moves to the new spawn position
  at a height in [50, 450) with its motion stopped. The `GameScene` class in
  `Scene` runs these in place.

What is proved:

- Health stays in [0, 3] under any sequence of events, including a direct
  `die`, and it never goes up.
- Once health is 0 the player stays dead: `damaged` stays set, because `die`
  never clears it and cancels the damage sequence whose end would. Every later
  `takeDamage` therefore does nothing.
- Events that the game produces keep a stronger consistency invariant. Direct
  `die` calls are excluded, since `Player.swift` calls `die` only from `takeDamage`.
  Under this invariant:
  - the category is damagedPenguin exactly while the damage sequence fades;
  - invulnerability, a running star sequence and speed 400 always go together;
  - a living player without star power moves at 200;
  - a dead player does not flap.
- `takeDamage` is idempotent. Any number of `takeDamage` calls while
  invulnerable changes nothing.
- The category masks are distinct single bits, and the penguin mask is 3.
  Whichever order the two bodies arrive in, a contact between the penguin and
  another category picks the other category. It hurts exactly when that
  category is ground or enemy.
- Across any run of frames the encounter spawn position only moves forward and
  stays on the grid 150 + 1200·k. The encounters are placed at 150, 1350,
  2550, … in order.

Inputs that the game takes from the device or the engine are parameters here:
the two random draws of the spawn step (`arc4random_uniform(10)` and
`arc4random_uniform(400)`), the player's x position, and the category masks of
the two bodies of a contact. The engine decides when each action closure fires,
so the models allow these events in any order.

`starPower` is never called by the scene: the power-up contact branch only
prints. If it were called after death, its end would set `forwardVelocity` back
to 200 on a dead penguin. The consistency invariant allows this: it requires
speed 200 only of a living player.

## Model

| member | source | states |
|---|---|---|
| PhysicsCategories.RawValue | FirstGame/GameScene.swift:12-19 | every category's raw value is a single bit no larger than 32 |
| PhysicsCategories.DistinctCategoriesDisjoint | FirstGame/GameScene.swift:12-19 | two categories have AND 0 exactly when they are different |
| PhysicsCategories.PenguinMaskSelectsPenguin | FirstGame/GameScene.swift:186 | the penguin mask is 3, with nonzero AND for penguin and damagedPenguin and zero AND for ground, enemy, coin and powerup |
| PlayerStates.Initial | FirstGame/Player.swift:13-57 | a new player has health 3, is neither damaged, invulnerable nor flapping, moves at 200 in the penguin category, and is consistent |
| PlayerStates.Die | FirstGame/Player.swift:210-215 | die stops flapping and forward motion and cancels every pending closure; health, damaged, invulnerable and the category are kept |
| PlayerStates.TakeDamage | FirstGame/Player.swift:222-233 | no change while invulnerable or damaged; otherwise damaged is set and health drops by exactly one; at 0 the die effects follow, otherwise the damage sequence starts |
| PlayerStates.StartFlapping | FirstGame/Player.swift:196-201 | no-op when health is at most 0; otherwise flapping becomes true and nothing else changes |
| PlayerStates.StopFlapping | FirstGame/Player.swift:203-208 | no-op when health is at most 0; otherwise flapping becomes false and nothing else changes |
| PlayerStates.StarPower | FirstGame/Player.swift:234-256 | speed 400, invulnerable, the star sequence (re)started; takeDamage then has no effect; health, damage and flapping kept |
| PlayerStates.StarPowerEnd | FirstGame/Player.swift:246-249 | when the star sequence is running it restores speed 200 and clears invulnerable; no-op otherwise |
| PlayerStates.DamageStart | FirstGame/Player.swift:108-111 | the damage sequence's first closure switches the category to damagedPenguin; nothing else changes |
| PlayerStates.DamageEnd | FirstGame/Player.swift:127-130 | the damage sequence's last closure restores the penguin category and clears damaged; nothing else changes |
| PlayerStates.StepKeepsHealthInvariant | FirstGame/Player.swift:210-230 | every event keeps health in [0, 3] with a dead player damaged and no damage sequence pending, and lowers health by at most one |
| PlayerStates.HealthNeverNegative | FirstGame/Player.swift:222-230 | under any sequence of events health stays at least 0 and never rises |
| PlayerStates.DeathIsFinal | FirstGame/Player.swift:210-230 | after health reaches 0, any later events leave health 0 and damaged set, and takeDamage is blocked |
| PlayerStates.StepKeepsConsistent | FirstGame/Player.swift:108-249 | every event except a direct die keeps the category, invulnerability, star sequence, speed and flapping consistent |
| PlayerStates.RunKeepsConsistent | FirstGame/Player.swift:108-249 | any run of events without a direct die keeps the state consistent |
| PlayerStates.TakeDamageIdempotent | FirstGame/Player.swift:222-225 | a second takeDamage right after the first changes nothing |
| PlayerStates.InvulnerableIgnoresDamage | FirstGame/Player.swift:223 | while invulnerable, any number of takeDamage calls leaves the state unchanged |
| PlayerSprite.Player.constructor | FirstGame/Player.swift:13-57 | the fields start in the initial state |
| PlayerSprite.Player.StartFlapping | FirstGame/Player.swift:196-201 | updates the fields as StartFlapping does |
| PlayerSprite.Player.StopFlapping | FirstGame/Player.swift:203-208 | updates the fields as StopFlapping does |
| PlayerSprite.Player.Die | FirstGame/Player.swift:210-215 | updates the fields as Die does |
| PlayerSprite.Player.TakeDamage | FirstGame/Player.swift:222-230 | updates the fields as TakeDamage does, calling Die when health reaches 0 |
| PlayerSprite.Player.StarPower | FirstGame/Player.swift:234-252 | updates the fields as StarPower does |
| PlayerSprite.Player.StarPowerEnd | FirstGame/Player.swift:246-249 | updates the fields as StarPowerEnd does |
| PlayerSprite.Player.DamageStart | FirstGame/Player.swift:108-111 | updates the fields as DamageStart does |
| PlayerSprite.Player.DamageEnd | FirstGame/Player.swift:127-130 | updates the fields as DamageEnd does |
| Contacts.OtherBody | FirstGame/GameScene.swift:189-195 | the other body is B exactly when body A's mask overlaps the penguin mask, and A otherwise |
| Contacts.OtherMask | FirstGame/GameScene.swift:184-195 | the other body's mask is B's when A overlaps the penguin mask and A's otherwise |
| Contacts.Classify | FirstGame/GameScene.swift:197-205 | a mask damages exactly when it is ground's or enemy's; it has no game logic exactly when it is none of ground, enemy, coin or powerup |
| Contacts.ContactEffect | FirstGame/GameScene.swift:197-205 | the player takes damage once when the other body's mask is ground's or enemy's, and is unchanged for coin, powerup and every other mask |
| Contacts.ClassifyCategory | FirstGame/GameScene.swift:197-205 | ground, enemy, coin and powerup each reach their own branch; penguin categories reach the default |
| Contacts.PenguinContact | FirstGame/GameScene.swift:181-206 | for penguin against another category, in either body order, the other body is that category and the player takes damage exactly when it is ground or enemy |
| Spawning.Initial | FirstGame/GameScene.swift:23-40 | the first encounter is due at 150, none placed yet, on the grid |
| Spawning.SpawnCheck | FirstGame/GameScene.swift:147-166 | nothing changes unless the player is past the spawn position; then an encounter is placed there and the position moves +1200; the star moves only on roll 0 when more than 1200 away, to the new spawn x at y in [50, 450) with zero velocity and spin |
| Spawning.SpawnCheckKeepsGrid | FirstGame/GameScene.swift:147-149 | one frame keeps the spawn position and the placed encounters on the 150 + 1200·k grid |
| Spawning.FramesKeepGrid | FirstGame/GameScene.swift:147-149 | over any frames the spawn position stays on the grid, never decreases, and earlier placements are kept |
| Scene.GameScene.constructor | FirstGame/GameScene.swift:22-53 | a fresh player in the initial state, first spawn at 150 and the star parked at (-2000, -2000) |
| Scene.GameScene.DidBegin | FirstGame/GameScene.swift:181-206 | returns the branch for the other body's mask, and leaves the player as ContactEffect says (one takeDamage call for ground or enemy) |
| Scene.GameScene.DidSimulatePhysics | FirstGame/GameScene.swift:146-166 | updates the spawn position, the placed encounters and the star as SpawnCheck says |

## Left out

- Animations, textures, fades, scaling, rotation, `alpha` and the sounds are engine
  primitives. Only their state effects are modelled: a sequence is pending or running,
  and its closures are events. Their durations (the fade pulses, the 8-second star
  power) are not modelled, and the closure events may arrive in any order.
- The death animation's closures only touch gravity, velocity and the texture, so they
  are not modelled. The same goes for the flap and soar animation keys.
- `die` calls `gameOver` on the parent scene. `GameScene.gameOver` is not part of this
  model.
- `Player.update` (the flapping force and the vertical speed cap) is floating-point physics.
  It is left out, as are the physics body settings in the initializer (mass, damping,
  contact and collision masks, the gravity sequence the initializer builds but never runs).
- The camera follow and zoom, `playerProgress` and `ground.checkForReposition` in
  `didSimulatePhysics` are left out. The player's x position is an input.
- `EncounterManager` is not part of this model. The effect of `placeNextEncounter` is
  recorded only as the list of positions passed to it. The `Star` node's other properties are not modelled.
- Accelerometer handling in `didMove` is device I/O and is left out.
- The touch handlers only forward to `startFlapping`/`stopFlapping`, and `atPoint`
  hit-testing is left out.
- The engine's contact filtering (which pairs of bodies produce a contact) is left out.
  `DidBegin` accepts any two masks, and the printed messages are replaced by the
  returned branch.
- Background parallax, the view controller and the enemy sprites (Bat, Blade, MadFly)
  only configure nodes and are left out.
- Positions are `real` and `forwardVelocity` is `int`. The CGFloat rounding of the Swift code is
  not modelled; every value involved is exactly representable.
- PlayerStates.RunKeepsConsistent: only covers runs without a direct `die` call. A
  direct `die` during the damage fade or during star power would leave the category
  damaged or the player invulnerable forever. The game never makes such a call.
  HealthNeverNegative and DeathIsFinal cover runs that include it.

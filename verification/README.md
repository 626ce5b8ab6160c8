# SuperShooter combat and progression, modelled in Dafny

This project models the two stateful components of the SuperShooter game
scripts:

- **The combat/death state machine of a character entity**
  (`CharacterEntity`). A character has an integer `health`, a `maxHealth` and
  a sticky `isDead` flag. The flag is set by `Kill` and cleared only by
  `ResetHealth`/`Reincarnate`. Its operations are `AddHealth`, `SetHealth`,
  `ResetHealth`, `Reincarnate`, `TakeDamage`, `DealDamage` and `Kill`. They
  call five overridable hooks, which are no-ops in the base class:
  `OnDamageTaken`, `OnDamageDealt`, `OnTargetKilled`, `OnDeath` and
  `BackFromTheDead`. Each hook runs after the state change it reports, so
  an override sees the updated state.
- **The area/phase progression controller** (`GameMaster.StartNextArea`).
  It either raises `gamePhase` when every play area has been used, or moves
  `currentArea` to the next play area. In the second case it resets the wave
  spawner (`EnemyManager`), writes that area's spawn points and the phase as
  its three multipliers, and starts a wave.

`combat.dfy` (module `Combat`) has two layers. The value layer gives one
function per operation on `Vitals` (health, death flag, maximum). Each
returns the new state and the hooks fired, in order. `Run` strings
operations together, and the lemmas about runs state what holds of every
reachable state. Hook events name the other entity involved (the damage
source or the target). The value layer is generic in the type that
identifies entities, and the class instantiates it with itself.
The class `Combat.CharacterEntity` changes its fields in place and calls
the hook methods. Each hook appends an event to the ghost trace `hooks`, with the state it
observes when it fires: the entity's own state, or the target's for
`OnDamageDealt` and `OnTargetKilled`. This is how the contracts fix when
each hook runs relative to the field updates.
Each single-entity operation is proved to leave exactly the state and
trace its value-layer function gives. `DealDamage` acts on a second entity:
it gives the target's state and trace through `Damaged`, and states the
hooks it adds to the attacker's own trace directly. Its contract also
covers the case where the target is the attacker itself.

`progression.dfy` (module `Progression`) gives `NextArea`, the effect of one
`StartNextArea` call on the counters. `Calls` and `Started` follow the
counters over many calls. The class `Progression.GameMaster` does the same
in place on a `Progression.EnemyManager`. That spawner keeps a ghost log of
the `Reset` and `StartNextWave` calls, and each `StartNextWave` entry records
the configuration in force when the wave started. This is how the contract
shows that `Reset` comes before the configuration writes and
`StartNextWave` after them.

Behaviour that the code has and that is easy to miss, all of it proved:

- The area lookup `playAreas[currentArea]` happens after the increment. So
  play area 0 is never started from a non-negative area. A call made from the last index bumps
  `currentArea` to `playAreas.Length` and then throws an index-out-of-range
  exception, without touching the spawner. `StartNextArea` returns
  `outOfRange` for that case. After it, every later call only raises the
  phase, because nothing ever sets `currentArea` back
  (`AreasRunOutThenOnlyPhasesAdvance`, `AreasStartInOrder`).
- `Kill` fires the death hook again on an entity that is already dead.
- `ResetHealth` sets `isDead` to `maxHealth == 0`. When the maximum is 0, it
  therefore marks a live entity dead and fires no death hook.
- Health stays within `0..maxHealth` only while every amount passed in is
  non-negative (`RunKeepsHealthInRange`). A negative heal goes below 0,
  because `AddHealth` has no floor (`HealCanGoBelowZero`). A negative damage
  goes above the maximum, because `TakeDamage` has no ceiling
  (`NegativeDamageCanExceedMax`).

## Behaviour of the code worth knowing

- `Reincarnate` on a live entity still calls `ResetHealth`, so health
  returns to `maxHealth`; only the revival hook is skipped.
- `health` is an auto-property with no initialiser in
  `CharacterEntity.cs`, so a new entity starts with health 0. The
  constructor models that.
- `maxHealth` is a public field and may hold any integer; the 0 case is
  the one described above.
- The spawner's three multipliers are held as `int`, because the only value
  the controller ever assigns to them is the `int` `gamePhase`.

## Model

| member | source | states |
|---|---|---|
| `Combat.Healed` | Assets/SuperShooter/Game/Scripts/CharacterEntity.cs:55-60 | new health is the smaller of `health + amount` and `maxHealth`, with no floor; death flag and maximum unchanged |
| `Combat.HealthSetTo` | Assets/SuperShooter/Game/Scripts/CharacterEntity.cs:63-68 | new health is the smaller of `newAmount` and `maxHealth`; the death flag is unchanged even for `newAmount <= 0` |
| `Combat.Restored` | Assets/SuperShooter/Game/Scripts/CharacterEntity.cs:71-75 | health becomes `maxHealth`; dead exactly when `maxHealth == 0` |
| `Combat.Reincarnated` | Assets/SuperShooter/Game/Scripts/CharacterEntity.cs:79-85 | leaves the same state as ResetHealth; fires the revival hook exactly once if the entity was dead, and never otherwise; the hook sees the restored state, so it runs after the reset |
| `Combat.Killed` | Assets/SuperShooter/Game/Scripts/CharacterEntity.cs:152-164 | dead regardless of health, health unchanged, death hook fired once and seeing the entity already dead |
| `Combat.Damaged` | Assets/SuperShooter/Game/Scripts/CharacterEntity.cs:93-119 | a dead entity is unchanged and fires nothing; otherwise health is `max(health - amount, 0)`, the damage hook fires first with `(amount, from)` and sees the new health with the entity still alive, and the entity dies (death hook after it, seeing it dead) iff its health reached 0, i.e. iff `amount >= health` |
| `Combat.Run` | Assets/SuperShooter/Game/Scripts/CharacterEntity.cs:55-164 | no sequence of operations changes `maxHealth`; each operation fires at most two hooks |
| `Combat.RunKeepsHealthInRange` | Assets/SuperShooter/Game/Scripts/CharacterEntity.cs:55-117 | from `0 <= health <= maxHealth`, every run whose heal, set and damage amounts are non-negative keeps health in that range |
| `Combat.HealCanGoBelowZero` | Assets/SuperShooter/Game/Scripts/CharacterEntity.cs:55-60 | a negative heal larger than the current health leaves health below 0 |
| `Combat.NegativeDamageCanExceedMax` | Assets/SuperShooter/Game/Scripts/CharacterEntity.cs:105-107 | negative damage on a live entity can raise health above `maxHealth` |
| `Combat.ZeroMaxResetKillsSilently` | Assets/SuperShooter/Game/Scripts/CharacterEntity.cs:71-75 | with `maxHealth == 0`, ResetHealth marks a live entity dead and fires no hook |
| `Combat.DeathIsAlwaysAnnounced` | Assets/SuperShooter/Game/Scripts/CharacterEntity.cs:71-164 | with a non-zero maximum, an entity alive before a run and dead after it had its death hook fired during the run, seeing it dead |
| `Combat.DeadEntityIgnoresDamage` | Assets/SuperShooter/Game/Scripts/CharacterEntity.cs:93-97 | any number of TakeDamage calls on a dead entity change nothing and fire nothing |
| `Combat.LethalHitIsFinal` | Assets/SuperShooter/Game/Scripts/CharacterEntity.cs:93-119 | a hit of at least the current health kills (damage hook seeing health 0, then death hook seeing the entity dead); a second hit then changes nothing and fires nothing |
| `Combat.KillRefiresDeath` | Assets/SuperShooter/Game/Scripts/CharacterEntity.cs:152-164 | Kill twice leaves the state of Kill once but fires the death hook twice: it is not idempotent |
| `Combat.HealingNeverRevives` | Assets/SuperShooter/Game/Scripts/CharacterEntity.cs:55-97 | AddHealth, SetHealth and TakeDamage calls leave a dead entity dead and fire no hook |
| `Combat.CharacterEntity.constructor` | Assets/SuperShooter/Game/Scripts/CharacterEntity.cs:28-50 | a new entity has health 0, is alive, has the given maximum and faction, and an empty hook trace |
| `Combat.CharacterEntity.AddHealth` | Assets/SuperShooter/Game/Scripts/CharacterEntity.cs:55-60 | state becomes `Healed` of the old state; no hook fires |
| `Combat.CharacterEntity.SetHealth` | Assets/SuperShooter/Game/Scripts/CharacterEntity.cs:63-68 | state becomes `HealthSetTo` of the old state; no hook fires |
| `Combat.CharacterEntity.ResetHealth` | Assets/SuperShooter/Game/Scripts/CharacterEntity.cs:71-75 | state becomes `Restored` of the old state; no hook fires |
| `Combat.CharacterEntity.Reincarnate` | Assets/SuperShooter/Game/Scripts/CharacterEntity.cs:79-85 | state and trace follow `Reincarnated`: the revival hook is appended once iff the entity was dead, after the reset |
| `Combat.CharacterEntity.BackFromTheDead` | Assets/SuperShooter/Game/Scripts/CharacterEntity.cs:88 | the revival hook is recorded once, with the entity's state at that moment |
| `Combat.CharacterEntity.TakeDamage` | Assets/SuperShooter/Game/Scripts/CharacterEntity.cs:93-119 | state and trace follow `Damaged`, so the damage hook runs after the health update and the death hook after the flag is set |
| `Combat.CharacterEntity.OnDamageTaken` | Assets/SuperShooter/Game/Scripts/CharacterEntity.cs:122 | the damage-taken hook is recorded once with its arguments and the entity's state at that moment |
| `Combat.CharacterEntity.DealDamage` | Assets/SuperShooter/Game/Scripts/CharacterEntity.cs:126-142 | a dead target leaves both entities and traces unchanged; otherwise the target follows `Damaged` with this entity as source, then this entity's trace gains the damage-dealt hook and, iff the target is now dead (iff `amount >= ` its old health), the target-killed hook, both seeing the target as the hit left it; with `target == this` all hooks land in one trace in that order; the attacker's own state is unchanged when it is not the target |
| `Combat.CharacterEntity.OnDamageDealt` | Assets/SuperShooter/Game/Scripts/CharacterEntity.cs:145 | the damage-dealt hook is recorded once with its arguments and the target's state at that moment |
| `Combat.CharacterEntity.OnTargetKilled` | Assets/SuperShooter/Game/Scripts/CharacterEntity.cs:147 | the target-killed hook is recorded once with its target and the target's state at that moment |
| `Combat.CharacterEntity.Kill` | Assets/SuperShooter/Game/Scripts/CharacterEntity.cs:152-164 | state and trace follow `Killed`, on every call, so the death hook runs after the flag is set |
| `Combat.CharacterEntity.OnDeath` | Assets/SuperShooter/Game/Scripts/CharacterEntity.cs:167 | the death hook is recorded once, with the entity's state at that moment |
| `Progression.NextArea` | Assets/SuperShooter/Game/Scripts/GameMaster.cs:74-119 | at `currentArea == areaCount` the phase rises by exactly 1 and the area stays; otherwise the area rises by exactly 1 and the phase stays; an area starts iff the bumped index is within the list, so area 0 is never started from a non-negative area; neither counter decreases; `0 <= currentArea <= areaCount` is preserved |
| `Progression.Calls` | Assets/SuperShooter/Game/Scripts/GameMaster.cs:79-97 | over any number of calls neither counter decreases, together they rise by exactly the number of calls, and the area range is preserved |
| `Progression.AreasRunOutThenOnlyPhasesAdvance` | Assets/SuperShooter/Game/Scripts/GameMaster.cs:79-97 | from area `a`, `areaCount - a` calls reach area `areaCount` and every call after that only raises the phase by 1 |
| `Progression.AreasStartInOrder` | Assets/SuperShooter/Game/Scripts/GameMaster.cs:97-104 | from area `a` below the last index, the calls that use up the areas start areas `a+1 .. areaCount-1` in order; the last of them throws |
| `Progression.EnemyManager.constructor` | Assets/SuperShooter/Game/Scripts/GameMaster.cs:25 | a spawner with the given configuration and an empty call log |
| `Progression.EnemyManager.Reset` | Assets/SuperShooter/Game/Scripts/GameMaster.cs:109 | the log gains one Reset call; the configuration afterwards is left open |
| `Progression.EnemyManager.StartNextWave` | Assets/SuperShooter/Game/Scripts/GameMaster.cs:116 | the log gains one StartNextWave call carrying the configuration in force; the configuration is unchanged |
| `Progression.GameMaster.constructor` | Assets/SuperShooter/Game/Scripts/GameMaster.cs:14-25 | a session at phase 1 in area 0 (the tutorial) with the given areas and spawner |
| `Progression.GameMaster.StartNextArea` | Assets/SuperShooter/Game/Scripts/GameMaster.cs:74-119 | counters follow `NextArea`; `outOfRange` iff the area lookup is out of range; the area range invariant is kept; when an area starts, the spawner's spawn points are that area's anchors in order, all three multipliers equal the phase, and its log gains exactly `[Reset, StartNextWave(that configuration)]`; otherwise the spawner is untouched |

## Left out

- `ICharacterEntity` and the `GameEntity` base class: the one class
  `CharacterEntity` stands for every combat participant. A `DealDamage`
  target that implements the interface differently is not modelled. `target` is a non-null
  reference: `DealDamage` with a null target throws a null-reference error
  before anything changes, and that case is not modelled.
- Overridden hooks: subclasses may override the five hooks with their own
  behaviour. The model uses the base no-op hooks, recorded in the trace. A
  hook that itself changed health or the death flag would change the
  results.
- `Debug.Log`/`Debug.LogError` output. The log line in `TakeDamage` reads
  `from.name`, so `from` is a non-null reference here. With a null `from`
  on a live entity the source lowers and clamps health first, then throws
  at that log line, skipping `OnDamageTaken` and `Kill`: a lethal hit then
  leaves health 0 with `isDead` still false. That path is not modelled.
- The `CharacterDied` event (never invoked), `headshotMultiplier`,
  `characterName`, `characterModel` and `bloodSplatterPrefab`: inspector
  data that no modelled operation reads.
- 32-bit `int` wrap-around of `health`, `gamePhase` and `currentArea`:
  integers are unbounded here.
- `GameMaster.Main`, `Exists`, `Awake` and the listener subscription in
  `Start`: Unity wiring. `waveSpawner` is a non-null reference, so the
  missing-spawner error path of `Start` is not modelled.
- `StartTutorial`, `EnemyWaveStarted`, `EnemyWaveCompleted`,
  `EnemySequenceCompleted`, `Update`, `UpdateUI` and `tutorialArea`: empty
  bodies or unused fields.
- The phase-complete log line and the `TODO` in the phase branch: no behaviour.
- The `EnemyManager` internals are not part of this model. `Reset` may
  change the configuration in any way. `StartNextWave` is taken to read
  the configuration without changing it.
- Spawn-point discovery (`GetComponentsInChildren<SpawnPoint>()` followed by
  `Select(sp => sp.transform)`): each play area is given directly as its
  ordered list of anchors.
- `Assets/MannyStuff/Player/Scripts/PlayerController.cs`: per-frame input
  polling, floating-point movement and physics, and empty weapon stubs.

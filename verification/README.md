# Dungeon crawler simulation core in Dafny

This project models the gameplay core of a cooperative dungeon crawler. Players
(archer, mage, tank, warrior) explore rooms, fight mobs and pick up the loot the mobs
drop. Each player is steered by a keyboard, a joystick or a computer AI.

The model covers these parts of the game:

- `Logic`, the simulation that runs at a fixed 120 ticks per second
  (`source/Logic.cpp`). It covers:
  - the tick counter;
  - the loot table a dying enemy draws from;
  - the gate that spawns a room's mob group the first time a player stands in it;
  - what an enemy projectile (an item on the floor) does to the player it touches;
  - the player AI's attack flags;
  - the fixed-timestep run loop;
  - `exit`;
  - the particle-effect countdowns of `updateDisplay`;
  - the constructor's player set-up and AI assignment.
- `Player` (`source/Player.cpp`). It covers:
  - the spell timers and attack flags, `checkSpells`, gold, the mount flag and the class id;
  - the four class factories with their spell tables;
  - the save/load order of a player's numbers.
- The small generic helpers of `include/Util.hpp`: `clamp`, `Not`/`makeNot`,
  `Supplier` and `Function`.

## Modules and files

Each file holds one module.

| File | Module | What it holds |
|---|---|---|
| `types.dfy` | `Types` | `Option`, 32-bit unsigned numbers with wrap-around, 2-D positions, and `RemoveIf`. `RemoveIf` is the list erase that `removeIf` and `erase(remove_if(...))` perform. |
| `util.dfy` | `Util` | The `Util.hpp` helpers. |
| `loot.dfy` | `Loot` | Projectile types, the drop table, and the pickup response. |
| `particles.dfy` | `Particles` | Particle-effect countdowns, as functions on lists. |
| `scheduler.dfy` | `Scheduler` | The time accounting of `run` on an integer microsecond clock. |
| `players.dfy` | `Players` | The `Player` class with its in-place setters, the factories, and the save and load streams. |
| `squad.dfy` | `Squad` | The AI assignment of the constructor, both as written and corrected (see "## Findings"). |
| `rules.dfy` | `Rules` | The datatypes of enemies, projectiles, rooms and particle spawns. It also holds the functions that say what one tick does to them. |
| `simulation.dfy` | `Simulation` | The `Logic` class itself. Its methods update the state in place and are proved against the `Rules`, `Particles`, `Squad` and `Scheduler` functions. |

## Code the model cannot see

The collaborators whose code is not in these files are parameters of the model:

- The random engine is a stream `rng: nat -> int`, fixed when the game is constructed
  (the engine is seeded once). It is a constant field of `Logic`. `drawsTaken` counts
  how many numbers have been drawn from it.
- `shouldBeRemoved` of enemies and projectiles is a parameter.
- `Terrain::getRoom` is `roomOf`.
- `Physics::collisionTest` between an enemy projectile and a player is `touches`.
- The Python AI's attack decision is `attack`.
- `Spell::update`, called by `checkSpells`, is `spellStep`: the new state of slot `i` of
  player `k`.

All but the random stream are bundled, one value per tick, in `Rules.Collaborators`.

The enumerator values of `ProjectileType`, `AI` and `SpellType` are declared in headers
that are not part of this model. So are the `Player` and `Spell` constructors and the
`SaveState`/`LoadGame` streams. Their assumed shape is listed under "## Left out".

## Model

| member | source | states |
|---|---|---|
| Types.AddU32 | source/Player.cpp:18-21 | Unsigned 32-bit addition: the plain sum when it fits, and the sum less 2^32 when it does not. |
| Types.RemoveIf | source/Logic.cpp:84-95 | Erasing the removed elements never lengthens a list. |
| Types.RemoveIfMembers | source/Logic.cpp:84-95 | An element survives the erase exactly when it was in the list and is not to be removed. |
| Types.RemoveIfAppend | source/Logic.cpp:84-95 | Erasing from a concatenation erases from each part; survivors keep their relative order. |
| Types.RemoveIfIdempotent | source/Logic.cpp:84-95 | A second erase with the same test changes nothing. |
| Types.RemoveIfKeepsAll | source/Logic.cpp:313-316 | When nothing is to be removed, the list is unchanged. |
| Types.RemoveIfDropsAll | source/Logic.cpp:313-316 | When everything is to be removed, the list becomes empty. |
| Util.Clamp | include/Util.hpp:59-63 | `clamp` returns `a`, `min` or `max`. It lies inside a non-empty range, is `a` itself when `a` is in range, `min` below it and `max` above it. |
| Util.ClampIdempotent | include/Util.hpp:59-63 | Clamping a clamped value again changes nothing. |
| Util.ClampMonotone | include/Util.hpp:59-63 | `clamp` preserves order. |
| Util.ClampEmptyRange | include/Util.hpp:59-63 | With `min > max`, values below `min` give `min` and all others give `max`, because the `a < min` test comes first. |
| Util.MakeNot | include/Util.hpp:41-57 | `makeNot(p)` answers the negation of `p` on every argument. |
| Util.NotNot | include/Util.hpp:41-57 | Negating twice gives back the original predicate. |
| Util.ApplyNot | include/Util.hpp:9-57 | A `Function` around `makeNot(p)` answers the opposite of a `Function` around `p`. |
| Util.SupplierBindsArgument | include/Util.hpp:9-39 | A `Supplier` around a call of `op` at a fixed argument gets what a `Function` around `op` applies to that argument. |
| Loot.DropFor | source/Logic.cpp:39-45 | Every seed gives one of the six loot types. |
| Loot.DropBands | source/Logic.cpp:39-45 | Over seeds 0..15: seed 0 gives COOLDOWN_RESET, 1 gives GOLD50, 2-3 GOLD20, 4-6 GOLD5, 7-10 HEAL and 11-15 GOLD. Each is an if-and-only-if. |
| Loot.DropDistribution | source/Logic.cpp:39-45 | The 16 seeds split 1/1/2/3/4/5 over COOLDOWN_RESET, GOLD50, GOLD20, GOLD5, HEAL and GOLD. No other type is ever dropped. |
| Loot.GoldFor | source/Logic.cpp:112-114 | The amount looked up by `type - GOLD` is 0 or one of 1, 5, 20, 50. |
| Loot.GoldMatchesNames | source/Logic.cpp:112-114 | The ordinal index arithmetic gives GOLD 1, GOLD5 5, GOLD20 20 and GOLD50 50. It gives every other type nothing. |
| Loot.PickupFor | source/Logic.cpp:110-114 | A touching item resets cooldowns exactly when it is COOLDOWN_RESET. It adds gold exactly when it is a gold type, and the amount is that type's. |
| Particles.Decay | source/Logic.cpp:304-307 | The saturating decrement never grows the countdown. It reaches 0 exactly when the countdown was at most `n`, and otherwise subtracts exactly `n`. |
| Particles.DecayComposes | source/Logic.cpp:302-307 | Decrementing by `a` and then by `b` equals decrementing by `a + b`. |
| Particles.DecayAllAppend | source/Logic.cpp:302-307 | Decrementing commutes with concatenation of effect lists. |
| Particles.NextFrameRunning | source/Logic.cpp:296-316 | After a frame, every remaining countdown is between 1 and 30. |
| Particles.NextFrameOrder | source/Logic.cpp:296-316 | After a frame, the surviving old effects come first and the surviving new ones after them, each group in order. |
| Particles.LaunchedSurvival | source/Logic.cpp:296-316 | An effect launched this frame survives at `30 - n` exactly when fewer than 30 ticks passed. Otherwise every new effect is erased. |
| Scheduler.NextPlan | source/Logic.cpp:255-264 | After a step the clock is at most two ticks past the schedule. A sleep ends exactly at the next tick time. The schedule either resyncs to `now` or advances by one tick. |
| Scheduler.TickTimeValue | source/Logic.cpp:249 | `1000000 / 120` truncates to 8333 microseconds. |
| Scheduler.ResyncExactlyWhenBehind | source/Logic.cpp:257-262 | The schedule jumps to `now` exactly when it is more than three ticks behind. Otherwise it advances one tick. |
| Scheduler.SleepExactlyWhenAhead | source/Logic.cpp:262-264 | The loop sleeps exactly when the next tick time is still ahead of `now`. |
| Scheduler.SleepAtMostOneTick | source/Logic.cpp:262-264 | When the clock is not behind the schedule, a sleep is at most one tick long. |
| Scheduler.StallResets | source/Logic.cpp:257-260 | A ten-tick stall resynchronises without sleeping. It does not queue catch-up ticks. |
| Scheduler.SmallLagCatchesUp | source/Logic.cpp:257-264 | A lag of one to three ticks advances one tick without sleeping. |
| Players.FactoryTables | source/Player.cpp:36-79 | Each factory gives its class id and three ready, idle spells whose active window fits inside the cooldown, with radius 0.5. Health is 300 for ranged classes and 600 for melee classes. |
| Players.MakePlayer | source/Player.cpp:97-108 | `makePlayer` dispatches on the class: archer, warrior and mage get their own factory's result, and the tank gets the tank factory's. The player stands at the given position, with a well-formed table and the class's health. |
| Players.ResetPointwise | source/Player.cpp:12-16 | Resetting keeps the number of spells. It sets each timer to 0 and leaves everything else in each spell unchanged. |
| Players.ResetIdempotent | source/Player.cpp:12-16 | A second `resetCooldowns` right after the first changes nothing. |
| Players.Decode | source/Player.cpp:89-95 | A successful read consumes exactly five fields and yields three timers. Writing the record back gives exactly those fields. |
| Players.DecodeEncode | source/Player.cpp:81-95 | Reading what `serialize` wrote restores id, gold and every timer, whatever follows in the stream. |
| Players.SaveState.constructor | source/Player.cpp:81-87 | A new save stream is empty. |
| Players.SaveState.Write | source/Player.cpp:81-87 | Each `serialize` call appends exactly one field. |
| Players.LoadGame.constructor | source/Player.cpp:89-95 | A new load stream reads from the start of its fields. |
| Players.LoadGame.ReadId | source/Player.cpp:91 | Reading an id returns the field at the cursor and advances the cursor by one. |
| Players.LoadGame.ReadNum | source/Player.cpp:92-94 | Reading a number returns the field at the cursor and advances the cursor by one. |
| Players.Player.constructor | source/Player.cpp:38-43 | A player takes the factory's id, spells, health, radius and position. It starts with no gold, unmounted and with AI key 0. |
| Players.Player.CheckSpells | source/Player.cpp:6-10 | Every slot, in slot order, becomes the spell step's answer for that slot of this player. The table keeps its three spells. |
| Players.Player.ResetCooldowns | source/Player.cpp:12-16 | The loop leaves exactly `Reset` of the old spells: every timer at 0, nothing else changed. |
| Players.Player.AddGold | source/Player.cpp:18-21 | Gold becomes the unsigned 32-bit sum of the old gold and the amount. |
| Players.Player.SetMounted | source/Player.cpp:23-29 | `isMounted()` then answers the value just set. |
| Players.Player.SetAttacking | source/Player.cpp:31-34 | Only the attack flag of slot `i` changes, to `b`. |
| Players.Player.GetSpellTimeleft | source/Player.cpp:46-48 | The result is the remaining cooldown divided by 12, rounded down. |
| Players.Player.SetAI | source/Logic.cpp:212-223 | The AI key becomes the given key. |
| Players.Player.Serialize | source/Player.cpp:81-87 | The stream grows by the id, the gold, then the three timers in slot order. |
| Players.Player.Unserialize | source/Player.cpp:89-95 | Id, gold and timers become the record at the read position. Nothing else about a spell changes, and the cursor advances by five. |
| Players.SaveAndLoad | source/Player.cpp:81-95 | Saving one player and loading into another copies id, gold and all three timers. The loaded player keeps everything else: each spell's kind and flags (only its countdown changes), mount, AI key, position, health and radius. |
| Squad.ScanAsWritten | source/Logic.cpp:206-217 | The scan as written keeps the list length. |
| Squad.AssignAsWritten | source/Logic.cpp:203-224 | The assignment as written keeps the list length. |
| Squad.ScanAsWrittenReachesSelf | source/Logic.cpp:206-217 | Once the scan has passed the slot itself, whose key starts at 0, the slot is a companion. |
| Squad.AsWrittenAlwaysCompanion | source/Logic.cpp:203-224 | As written, every IA slot becomes a companion and never the leader. |
| Squad.AsWrittenLoneArcher | source/Logic.cpp:203-224 | A lone computer-played archer becomes a companion as written, and the leader when corrected. |
| Squad.ScanOthers | source/Logic.cpp:206-217 | The corrected scan keeps the list length. |
| Squad.AssignSlot | source/Logic.cpp:203-224 | The corrected assignment keeps the list length. |
| Squad.ScanOthersSoFar | source/Logic.cpp:206-217 | After the scan of the first `j` players, the slot is a companion exactly when one of the others among them can be followed. |
| Squad.AssignSlotSpec | source/Logic.cpp:203-224 | An IA slot becomes its class's companion when another player is human or a leader, and its class's leader otherwise. No other slot changes. |
| Squad.AssignAll | source/Logic.cpp:194-226 | Assigning the slots in order keeps the list length. |
| Squad.AssignAllSpec | source/Logic.cpp:194-226 | Starting from no keys, every IA slot gets its class's companion or leader key and every other slot keeps key 0. There is at most one leader, and none while some player is left without an AI. |
| Squad.AllComputerOneLeader | source/Logic.cpp:194-226 | With the corrected scan, a party played entirely by the computer gets exactly one leader, the last slot. Every other slot becomes its class's companion. |
| Rules.MobCount | source/Logic.cpp:233-234 | A room spawns at least five mobs, plus one for every two in its id (`id / 2 + 5`). |
| Rules.Mob | source/Logic.cpp:234-237 | Mob `i` chases players and has 100 health per player and radius 0.5. It stands `i / 10` along the second axis from the room's origin. |
| Rules.Gate | source/Logic.cpp:53-63 | The rooms the gate spawns in one tick are rooms of the level. |
| Rules.GateSnoc | source/Logic.cpp:53-63 | One more player, in room `r`: `r` spawns exactly when it is still unflagged after the earlier players' turns. Then it is flagged and its mob group is appended; otherwise nothing changes. |
| Rules.GateSpec | source/Logic.cpp:53-63 | The gate spawns only rooms some player stands in whose flag was not set, and no room twice. It spawns every such room. |
| Rules.GateFlags | source/Logic.cpp:53-63 | After the gate every player's room is flagged. A room whose flag was already set is untouched. |
| Rules.GateOnce | source/Logic.cpp:53-63 | A second gate with the players in the same rooms spawns nothing. |
| Rules.GateNone | source/Logic.cpp:53-63 | When every player's room is flagged, the gate spawns nothing. |
| Rules.GateKeepsOnce | source/Logic.cpp:53-63 | If every logged room is flagged and none is logged twice, the same holds after the gate adds its rooms to the log. |
| Rules.WorldStepKeepsOnce | source/Logic.cpp:53-63 | If every logged room is flagged and none is logged twice, the same holds in `Rules.WorldAfter`, the world after the world part of a tick. |
| Rules.DropsSpec | source/Logic.cpp:35-50 | One drop per removed enemy, in list order. Each drop is a still item of radius 0.5 at its enemy's position, of the type the next draw selects, and always loot. |
| Rules.NoDeathNoDrops | source/Logic.cpp:35-50 | A tick in which no enemy is removed drops nothing. |
| Rules.ParticleFor | source/Logic.cpp:72-79 | EXPLOSION emits "explosion". HIT1, ARROW, BOUNCY_ARROW and ICE_PILLAR emit "blu". Every other type emits nothing. Each is an if-and-only-if. |
| Rules.SparksSnoc | source/Logic.cpp:64-81 | One more projectile adds its system's spawn at its position, or nothing for a type without a system. |
| Rules.LootIsDark | source/Logic.cpp:64-83 | Dropped loot adds no particle spawn. |
| Rules.Gain | source/Logic.cpp:107-116 | A projectile gives a player gold exactly when it touches the player and is a gold type. The amount is exactly that type's amount (1, 5, 20 or 50), and 0 when there is no touch. |
| Rules.GoldFoldIsSum | source/Logic.cpp:107-116 | Adding pickups one at a time with 32-bit wrap-around gives the total gained, wrapped once. |
| Rules.ResetHitExists | source/Logic.cpp:107-116 | A player's cooldowns are reset in a tick exactly when some touching projectile is COOLDOWN_RESET. |
| Rules.PickupStep | source/Logic.cpp:107-116 | One more item applies its gold, with wrap-around, and its cooldown reset on top of the earlier items. |
| Rules.AfterAISpec | source/Logic.cpp:133-143 | The AI turn changes no timer. It sets the attack flags of slots 0 and 2 to the AI's decision for an AI-driven player, and changes nothing for a human player. |
| Rules.PlayerAfter | source/Logic.cpp:53-143 | The player part of a tick changes only gold and spells. Id, AI key, mount and position stay, and the table keeps three spells. |
| Rules.RunLength | source/Logic.cpp:253-265 | The loop runs at most one tick per pass, and at least one tick when there is a pass. |
| Rules.FirstExit | source/Logic.cpp:269-275 | Counts the passes before the first `exit`. |
| Rules.RunStopsAfterExit | source/Logic.cpp:247-275 | `run` stops right after the first tick that sees `stop`. With `stop` already set, that is the first tick. |
| Rules.TraceSnoc | source/Logic.cpp:247-267 | A run's trace of worlds and players (`Rules.Trace`: each entry is the `Rules.Stepped` pass of the one before it, by that pass's collaborators) stays a trace when one more pass's step is appended. |
| Simulation.NewPlayers | source/Logic.cpp:189-191 | One fresh player per requested class, at `{i + 8, i % 2 + 8}`, with that class's spell table. Health is 300 for ranged and 600 for melee classes, and radius is 0.5. Each starts with no gold, unmounted and with AI key 0. |
| Simulation.AssignSlotAI | source/Logic.cpp:203-224 | The scan loop over the players leaves the keys that `Squad.AssignSlot` describes. |
| Simulation.AssignAIs | source/Logic.cpp:194-226 | The gameplay loop leaves the keys that `Squad.AssignAll` describes. Id, spells, position, gold, mount, health and radius of every player are unchanged. |
| Simulation.Logic.constructor | source/Logic.cpp:147-226 | A new game has the players above, with their health and radius, and AI keys as `Squad.AssignAll` describes. It has the given rooms and random stream, no enemies, projectiles or particles, no draws taken, and a cleared stop flag and counter. |
| Simulation.Logic.SpawnMobGroup | source/Logic.cpp:230-238 | Only room `r` changes: it is flagged. Exactly its mob group (`MobCount` mobs, each `Rules.Mob`) is appended, and the enemies already present are untouched. |
| Simulation.Logic.SpawnRooms | source/Logic.cpp:53-63 | Exactly the rooms of `Rules.Gate` for the players' rooms are flagged, their mob groups are appended in gate order, and the spawn log grows by the gate. No room spawns twice. |
| Simulation.Logic.VisitRooms | source/Logic.cpp:53-63 | The loop over the players leaves the rooms, enemies and log that the gate for all their rooms describes. |
| Simulation.Logic.VisitRoom | source/Logic.cpp:55-62 | One player's turn takes the state after the gate for the earlier players to the state after the gate including this one. |
| Simulation.Logic.DropLoot | source/Logic.cpp:35-51 | The enemy projectiles grow by exactly `Rules.Drops`, and one number is drawn per removed enemy. |
| Simulation.Logic.EmitSparks | source/Logic.cpp:64-81 | The particle queue grows by exactly the spawns of the given projectiles, in order. |
| Simulation.Logic.ApplySpellSteps | source/Logic.cpp:53-57 | Each player's spells become the spell step of their old spells. Gold, id, AI key, mount and position are unchanged. |
| Simulation.Logic.PickUp | source/Logic.cpp:107-116 | For one item: every touched player gains its gold with wrap-around, or has every cooldown reset. Id, AI key, mount and position are unchanged; health and radius are unconstrained (`hitEnemy` is not modelled). |
| Simulation.Logic.PickUpBy | source/Logic.cpp:107-116 | One player's side of one item: gold grows by exactly `Rules.Gain` with wrap-around, and spells are reset exactly for a touching COOLDOWN_RESET. |
| Simulation.Logic.ApplyPickups | source/Logic.cpp:107-116 | After all items, each player's gold and spells are exactly `Rules.GoldFold` and `Rules.AfterPickups`. Id, AI, mount and position are unchanged. |
| Simulation.Logic.ApplyAIAttacks | source/Logic.cpp:133-143 | Each player's spells become `Rules.AfterAI` of the old spells. Gold, id, AI key, mount and position are unchanged; health and radius are unconstrained (`execAI` is not modelled). |
| Simulation.Logic.DropsAndRooms | source/Logic.cpp:34-63 | The drops of the removed enemies are appended, one draw each. Exactly the rooms of `Rules.Gate` are flagged, their mob groups appended and their ids added to the spawn log. No room spawns twice. |
| Simulation.Logic.SparksAndRemovals | source/Logic.cpp:64-95 | Both projectile lists queue their spawns. Then projectiles, enemy projectiles and enemies are each erased with `Types.RemoveIf`. |
| Simulation.Logic.WorldPhase | source/Logic.cpp:34-95 | The world after a tick is `Rules.WorldAfter` of the world before it and the players' positions. Drops of removed enemies are drawn, the gate's rooms are flagged, their mob groups appended and their ids logged, particle spawns are queued, and removals are done. `Rules.WorldStepKeepsOnce` then gives that no room spawns twice. |
| Simulation.Logic.PlayerPhase | source/Logic.cpp:53-143 | Each player's state becomes `Rules.PlayerAfter` of their old state: spell steps, then pickups, then the AI turn. |
| Simulation.Logic.Step | source/Logic.cpp:34-143 | The world becomes `Rules.WorldAfter` of the world before it, and each player `Rules.PlayerAfter` of their state before it, against the enemy projectiles left after removal. Together these are `Rules.Stepped` of the world and players before and after. |
| Simulation.Logic.Tick | source/Logic.cpp:14-145 | The tick counter grows by one. The world and the players change as `Rules.Stepped` states, and the return value is `stop`. |
| Simulation.Logic.Exit | source/Logic.cpp:269-275 | `stop` is set. |
| Simulation.Logic.LaunchSpawns | source/Logic.cpp:296-301 | Every queued spawn becomes an effect with countdown 30, in queue order, and the queue is cleared. |
| Simulation.Logic.DecayParticles | source/Logic.cpp:302-312 | Every countdown drops by the ticks since the last frame, stopping at 0. |
| Simulation.Logic.EraseExpired | source/Logic.cpp:313-316 | The effects whose countdown reached 0 are erased, and the rest keep their order. |
| Simulation.Logic.UpdateDisplay | source/Logic.cpp:296-316 | The particle list becomes `Particles.NextFrame` of the old list, the queued spawns and the tick counter. Spawns are cleared, every countdown stays in 1..30, and the counter is reset to 0 (line 462). |
| Simulation.Logic.Pass | source/Logic.cpp:253-275 | One loop pass, with an optional `exit` before the tick. The counter grows by one, and the world and players change as `Rules.Stepped` states; the ghost results are the world and players after the pass. If no room had spawned twice, none has. The answer is stop exactly when `stop` was set or `exit` came first. The schedule becomes `Scheduler.NextPlan`'s when the answer is not stop and is unchanged otherwise. |
| Simulation.Logic.Run | source/Logic.cpp:247-267 | `run` performs exactly `Rules.RunLength` passes and returns only once `stop` is set (or the passes run out). Its ghost results are the run's trace: the worlds and players after 0, 1, ... passes, starting with those before the run and ending with those after it, each the `Rules.Stepped` pass of the one before by that pass's collaborators (`Rules.Trace`). The counter equals the ticks run, and the clock is never more than two ticks past the schedule. No room spawns twice if none had. |

## Left out

- Threading: the mutex around `tick`, `exit` and `updateDisplay` is not modelled, and neither is the sleep in `run`. Each method is one atomic step, and the sleep is only its computed length (`Scheduler.Plan.sleep`).
- Positions, the mob offsets `i * 0.1` and radii are exact reals, not doubles, so rounding is not modelled.
- Movement, walls and geometry are not modelled. This covers `element.update`, `correctFixture`, knockback and `takeDamage` on enemy contact, `correctOverlap`, projectile `hitEnemy` responses and wall responses. They are floating-point geometry on code that is not part of this model.
- Rendering is not modelled: entity positions and directions, animations, the camera, the UI overlay, the Ogre particle systems and `setEmitting`. An effect's payload is the spawn (position and system name) it was created from.
- The enemy AI calls (`execAI` for enemies) are not modelled. Of the player AI, only the attack decision is kept, as the `attack` parameter.
- `checkSpells`: what `Spell::update` does (casting, spawning projectiles, moving the player) is not modelled. The model keeps only the new spell value, as `spellStep`.
- `tick` runs each player's `checkSpells` in the same loop as the room gate. The model runs the whole gate first and the spell steps after it. The spell steps, as collaborator answers, do not read the rooms or enemies, so the outcome is the same.
- Rules.Gate: it skips a room index outside the level. `getRoom` always answers a room of the level, so this test only keeps the function total.
- Simulation.Logic.Pass: an `exit` that takes the lock before the tick is applied after the tick's own updates. The tick reads `stop` only for its answer, so the state and the answer are those of an `exit` before it.
- `spawnProjectile` is not modelled: it is called from spell code that is not part of this model.
- The keyboard and joystick branches of the constructor are not modelled. They only bind controllers to players, so the AI assignment skips those slots.
- Simulation.Logic.Run: the game loop runs until `exit`. The model runs it over a finite list of passes, each giving the clock reading and the collaborators for its tick. `exit` can come only between passes, before a tick. No `updateDisplay` runs between passes in the model: in the game it runs on another thread and resets `updatesSinceLastFrame` to 0 (source/Logic.cpp:462), so "the counter equals the ticks run" holds only for a run with no frame drawn during it.
- Simulation.Logic.Tick: `updatesSinceLastFrame` is an unbounded natural number rather than a 32-bit counter. A frame would need four billion ticks to make the difference.
- Rules.Mob: enemy health `100 * players.size()` is not wrapped to 32 bits. A wrap would need more than 42 million players.
- Util.Clamp: modelled on reals only. The template works for any ordered type, and returns a reference rather than a copy.
- Util.ApplyNot: the operations stored in `Supplier` and `Function` are taken as pure functions.
- Players.Player.Unserialize: it requires that a full record of the right field types be at the read position. A malformed stream is outside what `LoadGame` is known to do.
- The enumerator values of `ProjectileType` are not known. The model assumes GOLD, GOLD5, GOLD20 and GOLD50 are consecutive in that order, which the pickup code relies on.
- `Player` and `Spell` construction: a new player is assumed to start with no gold, unmounted and with AI key 0. A spell `{type, a, b}` is assumed to start ready and not active.
- Players.Player.GetId: it returns the class id, and `Simulation.AssignSlotAI` calls it. Its body is its whole meaning, so it has no separate contract and no row.
- The random engine is seeded with 42 in the source. The model takes any stream, so the properties hold for every seed.

## Findings

| source | as written | input that shows it | evidently intended | confidence | as-written member | corrected member |
|---|---|---|---|---|---|---|
| source/Logic.cpp:203-224 | The scan for a player to follow runs over every player, the IA slot itself included. The slot's own key is still 0 when the scan reaches it, so 0 counts as "a human to follow": every IA slot becomes a companion and the leader branch can never run. | One archer with gameplay IA: it becomes COMPANIONDISTANCEAI with nobody to follow. | An IA slot becomes a companion only when another player is human or a leader, and becomes the leader otherwise, so a computer-only party has exactly one leader. | not executed | Squad.AsWrittenAlwaysCompanion | Squad.AssignSlotSpec |

The `Logic` constructor in the model uses the corrected assignment (`Squad.AssignSlot`, `Simulation.AssignSlotAI`). Under it, a party played entirely by the computer gets exactly one leader (`Squad.AllComputerOneLeader`).

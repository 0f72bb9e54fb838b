/**
 * The values the simulation tick works on (enemies, projectiles, rooms,
 * queued particle spawns) and the specification functions that say what a
 * tick does to them: the loot dropped by removed enemies, the particle
 * spawns flying projectiles emit, the gold and cooldown resets a player
 * collects, and how many ticks `Logic::run` performs before it stops.
 */
module Rules {
  import opened Types
  import opened Players
  import Loot

  /** An enemy: its AI key, health, collision radius and position. */
  datatype Enemy = Enemy(ai: AI, health: nat, radius: real, pos: Vec2)

  /** A projectile (or an item lying on the floor): position, velocity, type and radius. */
  datatype Projectile = Projectile(pos: Vec2, speed: Vec2, kind: Loot.ProjectileType, radius: real)

  /** A room of the terrain: its number, its origin and whether its mobs have spawned. */
  datatype Room = Room(id: nat, pos: Vec2, mobsSpawned: bool)

  /** A particle system to start at a position: `particleSpawns` entries. */
  datatype Spawn = Spawn(pos: Vec2, system: string)

  // ---------------------------------------------------------------------------
  // Rooms and mobs

  /** `room.id / 2u + 5u`: the size of a room's mob group. */
  function MobCount(room: Room): (n: nat)
    ensures n >= 5
    ensures 2 * (n - 5) <= room.id < 2 * (n - 5) + 2
  {
    room.id / 2 + 5
  }

  /** Mob `i` of a room's group, when `players` players are in the game. */
  function Mob(room: Room, i: nat, players: nat): (e: Enemy)
    ensures e.ai == ChasePlayer && e.health == 100 * players && e.radius == 0.5
    ensures e.pos.x == room.pos.x && e.pos.y == room.pos.y + i as real * 0.1
  {
    Enemy(ChasePlayer, 100 * players, 0.5, room.pos.Plus(Vec2(0.0, i as real * 0.1)))
  }

  /** Where the `i`-th player starts: `{i + 8, i % 2 + 8}`. */
  function StartPos(i: nat): Vec2 {
    Vec2(i as real + 8.0, (i % 2) as real + 8.0)
  }

  /** The rooms the players at `at` stand in, in player order. */
  function RoomsAt(roomOf: Vec2 -> nat, at: seq<Vec2>): seq<nat> {
    seq(|at|, k requires 0 <= k < |at| => roomOf(at[k]))
  }

  /**
   * The rooms the gate of one tick spawns when the players stand in rooms `rs`,
   * visited in player order: each room whose flag is not set, once, at the
   * first player standing in it. (Every room a player stands in is a room of
   * the level; the bound test only keeps the function total.)
   */
  function Gate(rooms: seq<Room>, rs: seq<nat>): (g: seq<nat>)
    ensures forall j :: 0 <= j < |g| ==> g[j] < |rooms|
  {
    if rs == [] then []
    else
      var g := Gate(rooms, rs[..|rs| - 1]);
      var r := rs[|rs| - 1];
      if r < |rooms| && !rooms[r].mobsSpawned && r !in g then g + [r] else g
  }

  /** The rooms with those in `g` flagged as spawned. */
  function FlagAll(rooms: seq<Room>, g: seq<nat>): seq<Room> {
    seq(|rooms|, i requires 0 <= i < |rooms| => if i in g then rooms[i].(mobsSpawned := true) else rooms[i])
  }

  /** The mob group of one room, in spawn order. */
  function Group(room: Room, players: nat): seq<Enemy> {
    seq(MobCount(room), i requires 0 <= i < MobCount(room) => Mob(room, i, players))
  }

  /** The mob groups of the rooms `g`, one after the other. */
  function MobGroups(rooms: seq<Room>, g: seq<nat>, players: nat): seq<Enemy>
    requires forall j :: 0 <= j < |g| ==> g[j] < |rooms|
  {
    if g == [] then [] else MobGroups(rooms, g[..|g| - 1], players) + Group(rooms[g[|g| - 1]], players)
  }

  /** Flagging one more room is one more flag update. */
  lemma FlagSnoc(rooms: seq<Room>, g: seq<nat>, r: nat)
    requires r < |rooms|
    ensures FlagAll(rooms, g + [r]) == FlagAll(rooms, g)[r := rooms[r].(mobsSpawned := true)]
  {
  }

  /**
   * One more player, standing in room `r`: the gate grows by `r` exactly when
   * `r` is not flagged after the gate so far, and then one more room is flagged
   * and one more mob group follows.
   */
  lemma {:induction false} GateSnoc(rooms: seq<Room>, rs: seq<nat>, r: nat, players: nat)
    requires forall k :: 0 <= k < |rs| ==> rs[k] < |rooms|
    requires r < |rooms|
    ensures |FlagAll(rooms, Gate(rooms, rs))| == |rooms|
    ensures !FlagAll(rooms, Gate(rooms, rs))[r].mobsSpawned ==>
              && FlagAll(rooms, Gate(rooms, rs))[r] == rooms[r]
              && Gate(rooms, rs + [r]) == Gate(rooms, rs) + [r]
              && FlagAll(rooms, Gate(rooms, rs + [r])) == FlagAll(rooms, Gate(rooms, rs))[r := rooms[r].(mobsSpawned := true)]
              && MobGroups(rooms, Gate(rooms, rs + [r]), players) == MobGroups(rooms, Gate(rooms, rs), players) + Group(rooms[r], players)
    ensures FlagAll(rooms, Gate(rooms, rs))[r].mobsSpawned ==> Gate(rooms, rs + [r]) == Gate(rooms, rs)
  {
    var g := Gate(rooms, rs);
    assert (rs + [r])[..|rs|] == rs;
    if !FlagAll(rooms, g)[r].mobsSpawned {
      FlagSnoc(rooms, g, r);
      assert (g + [r])[..|g|] == g;
    }
  }

  /**
   * The gate spawns only rooms some player stands in whose flag was not set, no
   * room twice, and every such room.
   */
  lemma {:induction false} GateSpec(rooms: seq<Room>, rs: seq<nat>)
    requires forall k :: 0 <= k < |rs| ==> rs[k] < |rooms|
    ensures forall j :: 0 <= j < |Gate(rooms, rs)| ==> Gate(rooms, rs)[j] in rs && !rooms[Gate(rooms, rs)[j]].mobsSpawned
    ensures forall a, b :: 0 <= a < b < |Gate(rooms, rs)| ==> Gate(rooms, rs)[a] != Gate(rooms, rs)[b]
    ensures forall k :: 0 <= k < |rs| && !rooms[rs[k]].mobsSpawned ==> rs[k] in Gate(rooms, rs)
  {
    if rs != [] {
      var pre := rs[..|rs| - 1];
      GateSpec(rooms, pre);
      var g := Gate(rooms, rs);
      forall j | 0 <= j < |g|
        ensures g[j] in rs
      {
        if j < |Gate(rooms, pre)| {
          assert g[j] in pre;
        }
      }
      forall k | 0 <= k < |rs| && !rooms[rs[k]].mobsSpawned
        ensures rs[k] in g
      {
        if k < |pre| {
          assert rs[k] == pre[k];
        }
      }
    }
  }

  /** After the gate every player's room is flagged, and a room whose flag was set is untouched. */
  lemma {:induction false} GateFlags(rooms: seq<Room>, rs: seq<nat>)
    requires forall k :: 0 <= k < |rs| ==> rs[k] < |rooms|
    ensures |FlagAll(rooms, Gate(rooms, rs))| == |rooms|
    ensures forall k :: 0 <= k < |rs| ==> FlagAll(rooms, Gate(rooms, rs))[rs[k]].mobsSpawned
    ensures forall i :: 0 <= i < |rooms| && rooms[i].mobsSpawned ==> FlagAll(rooms, Gate(rooms, rs))[i] == rooms[i]
  {
    GateSpec(rooms, rs);
  }

  /** Each room spawns at most once: a second gate for the same rooms, after the first, spawns nothing. */
  lemma {:induction false} GateOnce(rooms: seq<Room>, rs: seq<nat>)
    requires forall k :: 0 <= k < |rs| ==> rs[k] < |rooms|
    ensures Gate(FlagAll(rooms, Gate(rooms, rs)), rs) == []
  {
    var after := FlagAll(rooms, Gate(rooms, rs));
    GateFlags(rooms, rs);
    GateNone(after, rs);
  }

  /** Every room in the spawn log is flagged, and no room is logged twice. */
  predicate SpawnedOnceIn(log: seq<nat>, rooms: seq<Room>) {
    && (forall i :: 0 <= i < |log| ==> log[i] < |rooms| && rooms[log[i]].mobsSpawned)
    && (forall a, b :: 0 <= a < b < |log| ==> log[a] != log[b])
  }

  /** The gate keeps the spawn log free of repeats: it only spawns rooms whose flag was not yet set. */
  lemma {:induction false} GateKeepsOnce(rooms: seq<Room>, log: seq<nat>, rs: seq<nat>)
    requires forall k :: 0 <= k < |rs| ==> rs[k] < |rooms|
    requires SpawnedOnceIn(log, rooms)
    ensures SpawnedOnceIn(log + Gate(rooms, rs), FlagAll(rooms, Gate(rooms, rs)))
  {
    var g := Gate(rooms, rs);
    var after := FlagAll(rooms, g);
    var log1 := log + g;
    GateSpec(rooms, rs);
    forall i | 0 <= i < |log1|
      ensures log1[i] < |after| && after[log1[i]].mobsSpawned
    {
      if i >= |log| {
        assert log1[i] == g[i - |log|] && log1[i] in g;
      }
    }
    forall a, b | 0 <= a < b < |log1|
      ensures log1[a] != log1[b]
    {
      if a < |log| && b >= |log| {
        assert rooms[log1[a]].mobsSpawned && !rooms[g[b - |log|]].mobsSpawned;
      } else if a >= |log| {
        assert log1[a] == g[a - |log|] && log1[b] == g[b - |log|];
      }
    }
  }

  /** When every player's room is flagged, the gate spawns nothing. */
  lemma {:induction false} GateNone(rooms: seq<Room>, rs: seq<nat>)
    requires forall k :: 0 <= k < |rs| ==> rs[k] < |rooms| && rooms[rs[k]].mobsSpawned
    ensures Gate(rooms, rs) == []
  {
    if rs != [] {
      GateNone(rooms, rs[..|rs| - 1]);
    }
  }

  // ---------------------------------------------------------------------------
  // Loot

  /** The enemies removed this tick, in list order. */
  function Dead(es: seq<Enemy>, gone: Enemy -> bool): seq<Enemy> {
    RemoveIf(es, e => !gone(e))
  }

  /** The item a dying enemy leaves at `pos` for a drawn seed: still, radius one half. */
  function LootAt(pos: Vec2, seed: int): Projectile {
    Projectile(pos, ZERO, Loot.DropFor(seed), 0.5)
  }

  /**
   * The items dropped by the removed enemies among `es`, one per removed enemy
   * in list order, the `i`-th using draw `d + i` of the generator `rng`.
   */
  function Drops(es: seq<Enemy>, gone: Enemy -> bool, rng: nat -> int, d: nat): seq<Projectile> {
    var dead := Dead(es, gone);
    seq(|dead|, i requires 0 <= i < |dead| => LootAt(dead[i].pos, rng(d + i)))
  }

  /** One more enemy in the list is one more removed enemy exactly when it is gone. */
  lemma DeadSnoc(es: seq<Enemy>, e: Enemy, gone: Enemy -> bool)
    ensures Dead(es + [e], gone) == Dead(es, gone) + (if gone(e) then [e] else [])
  {
    RemoveIfSnoc(es, e, x => !gone(x));
  }

  /** One more enemy in the list adds one drop, using the next draw, exactly when that enemy is removed. */
  lemma DropsSnoc(es: seq<Enemy>, e: Enemy, gone: Enemy -> bool, rng: nat -> int, d: nat)
    ensures Drops(es + [e], gone, rng, d) ==
              Drops(es, gone, rng, d) + (if gone(e) then [LootAt(e.pos, rng(d + |Dead(es, gone)|))] else [])
  {
    DeadSnoc(es, e, gone);
    var a := Drops(es + [e], gone, rng, d);
    var b := Drops(es, gone, rng, d);
    assert forall i :: 0 <= i < |b| ==> a[i] == b[i];
  }

  /**
   * There is one drop per removed enemy, at that enemy's position: loot lying
   * still, with radius one half, of the type the `i`-th draw selects.
   */
  lemma DropsSpec(es: seq<Enemy>, gone: Enemy -> bool, rng: nat -> int, d: nat)
    ensures |Drops(es, gone, rng, d)| == |Dead(es, gone)| <= |es|
    ensures forall i :: 0 <= i < |Dead(es, gone)| ==> Dead(es, gone)[i] in es && gone(Dead(es, gone)[i])
    ensures forall i :: 0 <= i < |Drops(es, gone, rng, d)| ==>
              && Drops(es, gone, rng, d)[i].pos == Dead(es, gone)[i].pos
              && Drops(es, gone, rng, d)[i].speed == ZERO
              && Drops(es, gone, rng, d)[i].radius == 0.5
              && Drops(es, gone, rng, d)[i].kind == Loot.DropFor(rng(d + i))
              && Loot.IsLoot(Drops(es, gone, rng, d)[i].kind)
  {
    var dead := Dead(es, gone);
    RemoveIfMembers(es, x => !gone(x));
    forall i | 0 <= i < |dead|
      ensures dead[i] in es && gone(dead[i])
    {
      assert dead[i] in dead;
    }
  }

  /** No drops when no enemy is removed. */
  lemma NoDeathNoDrops(es: seq<Enemy>, gone: Enemy -> bool, rng: nat -> int, d: nat)
    requires forall i :: 0 <= i < |es| ==> !gone(es[i])
    ensures Drops(es, gone, rng, d) == []
  {
    RemoveIfDropsAll(es, e => !gone(e));
  }

  // ---------------------------------------------------------------------------
  // Particle spawns of flying projectiles

  /** The particle system a projectile type emits each tick, if any. */
  function ParticleFor(t: Loot.ProjectileType): (s: Option<string>)
    ensures s == Some("explosion") <==> t == Loot.Explosion
    ensures s == Some("blu") <==> t in {Loot.Hit1, Loot.Arrow, Loot.BouncyArrow, Loot.IcePillar}
    ensures s.None? <==> t !in {Loot.Explosion, Loot.Hit1, Loot.Arrow, Loot.BouncyArrow, Loot.IcePillar}
  {
    if t == Loot.Explosion then Some("explosion")
    else if t == Loot.Hit1 || (t == Loot.Arrow || t == Loot.BouncyArrow || t == Loot.IcePillar) then Some("blu")
    else None
  }

  predicate Dark(p: Projectile) {
    ParticleFor(p.kind).None?
  }

  /** The name of the particle system a projectile emits; empty for one that emits nothing. */
  function SystemOf(p: Projectile): string {
    match ParticleFor(p.kind)
    case Some(name) => name
    case None => ""
  }

  /** The spawns a list of projectiles queues in one tick, in list order. */
  function Sparks(ps: seq<Projectile>): seq<Spawn> {
    var lit := RemoveIf(ps, Dark);
    seq(|lit|, i requires 0 <= i < |lit| => Spawn(lit[i].pos, SystemOf(lit[i])))
  }

  /** One more projectile adds its spawn at its position, if its type has a particle system. */
  lemma SparksSnoc(ps: seq<Projectile>, p: Projectile)
    ensures Sparks(ps + [p]) == Sparks(ps) + (if Dark(p) then [] else [Spawn(p.pos, SystemOf(p))])
  {
    RemoveIfSnoc(ps, p, Dark);
  }

  /** Items on the floor emit nothing: dropped loot adds no particle spawn. */
  lemma LootIsDark(es: seq<Enemy>, gone: Enemy -> bool, rng: nat -> int, d: nat, ps: seq<Projectile>)
    ensures Sparks(ps + Drops(es, gone, rng, d)) == Sparks(ps)
  {
    var drops := Drops(es, gone, rng, d);
    DropsSpec(es, gone, rng, d);
    RemoveIfAppend(ps, drops, Dark);
    RemoveIfDropsAll(drops, Dark);
  }

  // ---------------------------------------------------------------------------
  // Pickups

  /** The gold projectile `p` gives player `k` when `touches` says they collide. */
  function Gain(p: Projectile, touches: (Projectile, nat) -> bool, k: nat): (g: nat)
    ensures g == 0 || g in Loot.GOLD_AMOUNTS
    ensures g > 0 <==> touches(p, k) && Loot.GoldByName(p.kind) > 0
    ensures g == if touches(p, k) then Loot.GoldByName(p.kind) else 0
  {
    match Loot.PickupFor(p.kind)
    case AddGold(a) => if touches(p, k) then a else 0
    case _ => 0
  }

  /** Player `k`'s gold after the pickups in `ps`, added one at a time with 32-bit wrap-around. */
  function GoldFold(g: U32, ps: seq<Projectile>, touches: (Projectile, nat) -> bool, k: nat): U32 {
    if ps == [] then g
    else AddU32(GoldFold(g, ps[..|ps| - 1], touches, k), Gain(ps[|ps| - 1], touches, k))
  }

  /** The total gold the projectiles `ps` give player `k`. */
  function GoldGained(ps: seq<Projectile>, touches: (Projectile, nat) -> bool, k: nat): nat {
    if ps == [] then 0 else GoldGained(ps[..|ps| - 1], touches, k) + Gain(ps[|ps| - 1], touches, k)
  }

  /** Wrapping after every pickup is the same as adding the total once and wrapping. */
  lemma {:induction false} GoldFoldIsSum(g: U32, ps: seq<Projectile>, touches: (Projectile, nat) -> bool, k: nat)
    ensures GoldFold(g, ps, touches, k) == (g + GoldGained(ps, touches, k)) % U32_LIMIT
    decreases |ps|
  {
    if ps != [] {
      GoldFoldIsSum(g, ps[..|ps| - 1], touches, k);
      AddU32Fold(g + GoldGained(ps[..|ps| - 1], touches, k), Gain(ps[|ps| - 1], touches, k));
    }
  }

  /** Some projectile in `ps` is a cooldown reset touching player `k`. */
  predicate ResetHit(ps: seq<Projectile>, touches: (Projectile, nat) -> bool, k: nat) {
    ps != [] &&
      (ResetHit(ps[..|ps| - 1], touches, k) || (touches(ps[|ps| - 1], k) && ps[|ps| - 1].kind == Loot.CooldownReset))
  }

  /** `ResetHit` holds exactly when one of the projectiles is a touching cooldown reset. */
  lemma {:induction false} ResetHitExists(ps: seq<Projectile>, touches: (Projectile, nat) -> bool, k: nat)
    ensures ResetHit(ps, touches, k) <==> exists j :: 0 <= j < |ps| && touches(ps[j], k) && ps[j].kind == Loot.CooldownReset
    decreases |ps|
  {
    if ps != [] {
      var pre := ps[..|ps| - 1];
      ResetHitExists(pre, touches, k);
      if exists j :: 0 <= j < |ps| && touches(ps[j], k) && ps[j].kind == Loot.CooldownReset {
        var j :| 0 <= j < |ps| && touches(ps[j], k) && ps[j].kind == Loot.CooldownReset;
        if j < |pre| {
          assert pre[j] == ps[j];
        }
      }
      if ResetHit(pre, touches, k) {
        var j :| 0 <= j < |pre| && touches(pre[j], k) && pre[j].kind == Loot.CooldownReset;
        assert ps[j] == pre[j];
      }
    }
  }

  /** A player's spells after the pickups: every timer reset if a cooldown reset touched them. */
  function AfterPickups(ss: seq<Spell>, ps: seq<Projectile>, touches: (Projectile, nat) -> bool, k: nat): (r: seq<Spell>)
    ensures |r| == |ss|
  {
    if ResetHit(ps, touches, k) then Reset(ss) else ss
  }

  /** Taking one more projectile into the pickups applies that projectile's gold and reset on top of the earlier ones. */
  lemma PickupStep(g: U32, ss: seq<Spell>, ps: seq<Projectile>, j: nat, touches: (Projectile, nat) -> bool, k: nat)
    requires j < |ps|
    ensures GoldFold(g, ps[..j + 1], touches, k) == AddU32(GoldFold(g, ps[..j], touches, k), Gain(ps[j], touches, k))
    ensures AfterPickups(ss, ps[..j + 1], touches, k) ==
              if touches(ps[j], k) && ps[j].kind == Loot.CooldownReset then Reset(AfterPickups(ss, ps[..j], touches, k))
              else AfterPickups(ss, ps[..j], touches, k)
  {
    assert ps[..j + 1][..j] == ps[..j];
    ResetIdempotent(ss);
  }

  /** A player's spells after the AI turn: an AI-driven player's slots 0 and 2 take the AI's attack decision. */
  function AfterAI(ss: seq<Spell>, ai: AI, attack: bool): seq<Spell>
    requires |ss| == SPELL_COUNT
  {
    if ai != NoAI then SetBothAttacks(ss, attack) else ss
  }

  /** An AI turn changes only the attack flags of slots 0 and 2, and only for AI-driven players. */
  lemma AfterAISpec(ss: seq<Spell>, ai: AI, attack: bool)
    requires |ss| == SPELL_COUNT
    ensures |AfterAI(ss, ai, attack)| == SPELL_COUNT
    ensures Timers(AfterAI(ss, ai, attack)) == Timers(ss)
    ensures forall i :: 0 <= i < SPELL_COUNT ==>
              AfterAI(ss, ai, attack)[i] ==
                if ai != NoAI && i != 1 then ss[i].(active := attack) else ss[i]
  {
  }

  // ---------------------------------------------------------------------------
  // One tick

  /**
   * The answers of the code outside this model during one tick: which enemies
   * and projectiles are to be removed, the room at a position, whether an enemy
   * projectile touches player `k`, the player AI's attack decision for player
   * `k`, and what `Spell::update` makes of slot `i` of player `k`.
   */
  datatype Collaborators = Collaborators(
    enemyGone: Enemy -> bool,
    projectileGone: Projectile -> bool,
    roomOf: Vec2 -> nat,
    touches: (Projectile, nat) -> bool,
    attack: nat -> bool,
    spellStep: (nat, nat, Spell) -> Spell)

  /** The part of the game state the world phase of a tick reads or writes, as a value. */
  datatype World = World(enemies: seq<Enemy>, projectiles: seq<Projectile>, enemyProjectiles: seq<Projectile>,
                         particleSpawns: seq<Spawn>, drawsTaken: nat, rooms: seq<Room>, spawnLog: seq<nat>)

  /**
   * Player `k`'s state after the player part of a tick, given its state before
   * it and the enemy projectiles it sees: every spell advanced by the spell
   * step, the gold of the touching gold items added with wrap-around, every
   * spell ready again after a touching cooldown reset, the attack slots of an
   * AI-driven player set by its AI.
   */
  function PlayerAfter(c: Collaborators, v: PlayerView, ps: seq<Projectile>, k: nat): (r: PlayerView)
    requires |v.spells| == SPELL_COUNT
    ensures |r.spells| == SPELL_COUNT
    ensures r.id == v.id && r.ai == v.ai && r.mounted == v.mounted && r.pos == v.pos
  {
    v.(gold := GoldFold(v.gold, ps, c.touches, k),
       spells := AfterAI(AfterPickups(StepSpells(v.spells, c.spellStep, k), ps, c.touches, k), v.ai, c.attack(k)))
  }

  /**
   * The world after the world part of a tick, given the random stream, the
   * number of players, the world before it and where the players stand: the
   * drops of the removed enemies drawn, the particle spawns of both projectile
   * lists queued, the rooms of the gate flagged, their mob groups appended and
   * their ids logged, and the removals done.
   */
  function WorldAfter(c: Collaborators, rng: nat -> int, players: nat, w0: World, at: seq<Vec2>): World {
    var gate := Gate(w0.rooms, RoomsAt(c.roomOf, at));
    World(enemies := RemoveIf(w0.enemies + MobGroups(w0.rooms, gate, players), c.enemyGone),
          projectiles := RemoveIf(w0.projectiles, c.projectileGone),
          enemyProjectiles :=
            RemoveIf(w0.enemyProjectiles + Drops(w0.enemies, c.enemyGone, rng, w0.drawsTaken), c.projectileGone),
          particleSpawns := w0.particleSpawns + Sparks(w0.projectiles) + Sparks(w0.enemyProjectiles),
          drawsTaken := w0.drawsTaken + |Dead(w0.enemies, c.enemyGone)|,
          rooms := FlagAll(w0.rooms, gate),
          spawnLog := w0.spawnLog + gate)
  }

  /** A world step keeps every logged room flagged and no room logged twice. */
  lemma WorldStepKeepsOnce(c: Collaborators, rng: nat -> int, players: nat, w0: World, at: seq<Vec2>)
    requires forall v :: c.roomOf(v) < |w0.rooms|
    requires SpawnedOnceIn(w0.spawnLog, w0.rooms)
    ensures SpawnedOnceIn(WorldAfter(c, rng, players, w0, at).spawnLog, WorldAfter(c, rng, players, w0, at).rooms)
  {
    GateKeepsOnce(w0.rooms, w0.spawnLog, RoomsAt(c.roomOf, at));
  }

  // ---------------------------------------------------------------------------
  // The run loop

  /**
   * One pass of the run loop: whether another thread calls `exit` before the
   * tick, the collaborators' answers during the tick, and the clock reading
   * after it.
   */
  datatype Frame = Frame(exitFirst: bool, c: Collaborators, now: int)

  /** Where the players of the views `vs` stand, in order. */
  function PositionsOf(vs: seq<PlayerView>): seq<Vec2> {
    seq(|vs|, k requires 0 <= k < |vs| => vs[k].pos)
  }

  /**
   * One pass's effect on the world and the players: the world becomes
   * `WorldAfter` the world before it, with the players standing where `v0` puts them, and
   * every player steps as `PlayerAfter` says.
   */
  ghost predicate Stepped(c: Collaborators, rng: nat -> int, w0: World, v0: seq<PlayerView>, w: World, v: seq<PlayerView>) {
    && |v| == |v0|
    && w == WorldAfter(c, rng, |v0|, w0, PositionsOf(v0))
    && forall k :: 0 <= k < |v0| ==>
         |v0[k].spells| == SPELL_COUNT && v[k] == PlayerAfter(c, v0[k], w.enemyProjectiles, k)
  }

  /**
   * The worlds and players of a run after 0, 1, 2, ... passes over `fs`: each
   * one is the step of the one before it by that pass's frame.
   */
  ghost predicate Trace(rng: nat -> int, fs: seq<Frame>, ws: seq<World>, vs: seq<seq<PlayerView>>) {
    && 0 < |ws| == |vs| <= |fs| + 1
    && forall i :: 0 <= i < |ws| - 1 ==> Stepped(fs[i].c, rng, ws[i], vs[i], ws[i + 1], vs[i + 1])
  }

  /** A trace grows by one pass's step. */
  lemma TraceSnoc(rng: nat -> int, fs: seq<Frame>, ws: seq<World>, vs: seq<seq<PlayerView>>, w: World, v: seq<PlayerView>)
    requires Trace(rng, fs, ws, vs) && |ws| <= |fs|
    requires Stepped(fs[|ws| - 1].c, rng, ws[|ws| - 1], vs[|ws| - 1], w, v)
    ensures Trace(rng, fs, ws + [w], vs + [v])
  {
    var ws', vs' := ws + [w], vs + [v];
    forall i | 0 <= i < |ws'| - 1
      ensures Stepped(fs[i].c, rng, ws'[i], vs'[i], ws'[i + 1], vs'[i + 1])
    {
      if i < |ws| - 1 {
        assert ws'[i] == ws[i] && ws'[i + 1] == ws[i + 1] && vs'[i] == vs[i] && vs'[i + 1] == vs[i + 1];
      }
    }
  }

  /** The number of ticks `run` performs on the passes `fs`, starting with the stop flag `stop`. */
  function RunLength(stop: bool, fs: seq<Frame>): (n: nat)
    ensures n <= |fs|
    ensures fs != [] ==> n > 0
  {
    if fs == [] then 0
    else if stop || fs[0].exitFirst then 1
    else 1 + RunLength(false, fs[1..])
  }

  /** The passes before the first call to `exit`. */
  function FirstExit(fs: seq<Frame>): (n: nat)
    ensures n <= |fs|
    ensures forall j :: 0 <= j < n ==> !fs[j].exitFirst
    ensures n < |fs| ==> fs[n].exitFirst
  {
    if fs == [] || fs[0].exitFirst then 0 else 1 + FirstExit(fs[1..])
  }

  /**
   * `run` performs exactly one tick when the stop flag is already set, and
   * otherwise stops right after the first tick that observes `exit`; without
   * an `exit` it keeps ticking.
   */
  lemma {:induction false} RunStopsAfterExit(stop: bool, fs: seq<Frame>)
    ensures stop ==> RunLength(stop, fs) == if fs == [] then 0 else 1
    ensures !stop ==> RunLength(stop, fs) == if FirstExit(fs) < |fs| then FirstExit(fs) + 1 else |fs|
    decreases |fs|
  {
    if fs != [] && !stop && !fs[0].exitFirst {
      RunStopsAfterExit(false, fs[1..]);
    }
  }
}

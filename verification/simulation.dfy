/**
 * The simulation core, `Logic` (`source/Logic.cpp`): the state one game
 * updates tick by tick, the tick itself, the room spawn gate, the run loop
 * with its fixed time step, `exit`, the particle countdowns of
 * `updateDisplay`, and the player set-up of the constructor.
 *
 * Collaborators whose code is not part of this model (`shouldBeRemoved`,
 * `Terrain::getRoom`, `Physics::collisionTest`, the Python AI, the spell
 * updates of `checkSpells`) are passed in as functions, one `Collaborators`
 * value per tick; the random engine, seeded once per game, is the stream of
 * numbers it produces, fixed at construction.
 */
module Simulation {
  import opened Types
  import opened Players
  import opened Particles
  import opened Squad
  import opened Rules
  import Loot
  import Scheduler

  /** The AI keys of a list of players, in order. */
  ghost function AisOf(ps: seq<Player>): (r: seq<AI>)
    reads ps
    ensures |r| == |ps|
    ensures forall k :: 0 <= k < |ps| ==> r[k] == ps[k].ai
  {
    seq(|ps|, k requires 0 <= k < |ps| reads ps => ps[k].ai)
  }

  /** No player object appears twice. */
  ghost predicate Distinct(ps: seq<Player>) {
    forall a, b :: 0 <= a < b < |ps| ==> ps[a] != ps[b]
  }

  /** The players of a new game, one per requested class, each at its start position, without an AI. */
  method NewPlayers(ids: seq<PlayerId>) returns (ps: seq<Player>)
    ensures |ps| == |ids| && Distinct(ps)
    ensures forall k :: 0 <= k < |ps| ==>
              && fresh(ps[k]) && ps[k].Valid()
              && ps[k].id == ids[k] && ps[k].pos == StartPos(k)
              && ps[k].spells == MakePlayer(StartPos(k), ids[k]).spells
              && ps[k].health == (if IsRanged(ids[k]) then 300 else 600) && ps[k].radius == 0.5
              && ps[k].gold == 0 && !ps[k].mounted && ps[k].ai == NoAI
  {
    ps := [];
    var i := 0;
    while i < |ids|
      invariant 0 <= i <= |ids| && |ps| == i
      invariant Distinct(ps)
      invariant forall k :: 0 <= k < i ==>
                  && fresh(ps[k]) && ps[k].Valid()
                  && ps[k].id == ids[k] && ps[k].pos == StartPos(k)
                  && ps[k].spells == MakePlayer(StartPos(k), ids[k]).spells
                  && ps[k].health == (if IsRanged(ids[k]) then 300 else 600) && ps[k].radius == 0.5
                  && ps[k].gold == 0 && !ps[k].mounted && ps[k].ai == NoAI
    {
      var p := new Player(MakePlayer(StartPos(i), ids[i]));
      ps := ps + [p];
      i := i + 1;
    }
  }

  /**
   * The AI key of IA slot `i`: the scan over the other players makes it a
   * companion when one of them can be followed, and a slot the scan left
   * without a key becomes the leader.
   */
  method AssignSlotAI(ps: seq<Player>, i: nat, slot: Player)
    requires i < |ps| && Distinct(ps) && ps[i] == slot
    modifies slot`ai
    ensures AisOf(ps) == AssignSlot(old(AisOf(ps)), i, slot.id)
  {
    ghost var before := AisOf(ps);
    var id := slot.GetId();
    var j := 0;
    while j < |ps|
      invariant 0 <= j <= |ps|
      invariant AisOf(ps) == ScanOthers(before, i, id, j)
    {
      if j != i && Followable(ps[j].ai) {
        slot.SetAI(Companion(id));
      }
      j := j + 1;
    }
    if slot.ai == NoAI {
      slot.SetAI(Leader(id));
    }
  }

  /** The gameplay loop of the constructor, restricted to the IA slots; nothing but AI keys changes. */
  method AssignAIs(ps: seq<Player>, ids: seq<PlayerId>, gp: seq<Gameplay>)
    requires |gp| <= |ids| == |ps| && Distinct(ps)
    requires forall k :: 0 <= k < |ps| ==> ps[k].id == ids[k]
    modifies ps
    ensures AisOf(ps) == AssignAll(old(AisOf(ps)), ids, gp, |gp|)
    ensures forall k :: 0 <= k < |ps| ==>
              && ps[k].id == old(ps[k].id) && ps[k].spells == old(ps[k].spells) && ps[k].pos == old(ps[k].pos)
              && ps[k].gold == old(ps[k].gold) && ps[k].mounted == old(ps[k].mounted)
              && ps[k].health == old(ps[k].health) && ps[k].radius == old(ps[k].radius)
  {
    var i := 0;
    while i < |gp|
      invariant 0 <= i <= |gp|
      invariant AisOf(ps) == AssignAll(old(AisOf(ps)), ids, gp, i)
      invariant forall k :: 0 <= k < |ps| ==>
                  && ps[k].id == old(ps[k].id) && ps[k].spells == old(ps[k].spells) && ps[k].pos == old(ps[k].pos)
                  && ps[k].gold == old(ps[k].gold) && ps[k].mounted == old(ps[k].mounted)
                  && ps[k].health == old(ps[k].health) && ps[k].radius == old(ps[k].radius)
    {
      if gp[i] == IA {
        AssignSlotAI(ps, i, ps[i]);
      }
      i := i + 1;
    }
  }

  class Logic {
    const players: seq<Player>
    /** The numbers the game's random engine produces, in draw order; the engine is seeded once, at construction. */
    const rng: nat -> int
    var enemies: seq<Enemy>
    var projectiles: seq<Projectile>
    var enemyProjectiles: seq<Projectile>
    var rooms: seq<Room>
    var particleSpawns: seq<Spawn>
    var particles: seq<Effect<Spawn>>
    var updatesSinceLastFrame: nat
    var stop: bool
    var lastUpdate: int
    /** How many numbers have been drawn from the random engine. */
    var drawsTaken: nat
    /** The rooms whose mob groups have spawned, in spawn order. */
    ghost var spawnLog: seq<nat>

    /** Every player holds three spells, no player is listed twice, every particle countdown is running. */
    ghost predicate Valid()
      reads this`particles, players
    {
      && (forall k :: 0 <= k < |players| ==> players[k].Valid())
      && Distinct(players)
      && AllRunning(particles)
    }

    /** Every spawned room is flagged, and no room has spawned twice. */
    ghost predicate SpawnedOnce()
      reads this`spawnLog, this`rooms
    {
      SpawnedOnceIn(spawnLog, rooms)
    }

    /**
     * The constructor: one player per requested class, placed at its start
     * position, then an AI key for every slot played by the computer. The keys
     * come from the corrected assignment (see the `Squad` module).
     */
    constructor (ids: seq<PlayerId>, gp: seq<Gameplay>, level: seq<Room>, rng: nat -> int)
      requires |gp| <= |ids|
      ensures Valid() && SpawnedOnce()
      ensures |players| == |ids|
      ensures forall i :: 0 <= i < |ids| ==>
                && fresh(players[i])
                && players[i].id == ids[i] && players[i].pos == StartPos(i)
                && players[i].spells == MakePlayer(StartPos(i), ids[i]).spells
                && players[i].health == (if IsRanged(ids[i]) then 300 else 600) && players[i].radius == 0.5
                && players[i].gold == 0 && !players[i].mounted
      ensures AisOf(players) == AssignAll(seq(|ids|, _ => NoAI), ids, gp, |gp|)
      ensures rooms == level && enemies == [] && projectiles == [] && enemyProjectiles == []
      ensures particleSpawns == [] && particles == [] && spawnLog == []
      ensures !stop && updatesSinceLastFrame == 0 && drawsTaken == 0 && this.rng == rng
    {
      var ps := NewPlayers(ids);
      assert AisOf(ps) == seq(|ids|, _ => NoAI);
      AssignAIs(ps, ids, gp);
      players := ps;
      enemies, projectiles, enemyProjectiles, rooms := [], [], [], level;
      particleSpawns, particles := [], [];
      updatesSinceLastFrame, stop, lastUpdate, drawsTaken := 0, false, 0, 0;
      spawnLog := [];
      this.rng := rng;
    }

    /**
     * `spawnMobGroup`: flags the room and adds its mob group, `id / 2 + 5`
     * chasing enemies stacked one tenth apart from the room's origin.
     */
    method SpawnMobGroup(r: nat)
      requires r < |rooms|
      modifies this`rooms, this`enemies, this`spawnLog
      ensures rooms == old(rooms)[r := old(rooms)[r].(mobsSpawned := true)]
      ensures enemies == old(enemies) + Group(old(rooms)[r], |players|)
      ensures spawnLog == old(spawnLog) + [r]
      ensures old(SpawnedOnce()) && !old(rooms)[r].mobsSpawned ==> SpawnedOnce()
    {
      var room := rooms[r];
      rooms := rooms[r := room.(mobsSpawned := true)];
      var i := 0;
      while i < room.id / 2 + 5
        invariant 0 <= i <= MobCount(room)
        invariant rooms == old(rooms)[r := room.(mobsSpawned := true)] && spawnLog == old(spawnLog)
        invariant enemies == old(enemies) + Group(room, |players|)[..i]
      {
        assert Group(room, |players|)[..i + 1] == Group(room, |players|)[..i] + [Mob(room, i, |players|)];
        enemies := enemies + [Mob(room, i, |players|)];
        i := i + 1;
      }
      assert Group(room, |players|)[..i] == Group(room, |players|);
      spawnLog := spawnLog + [r];
    }

    /**
     * The room gate of `tick`: each player's room, in player order, spawns its
     * mob group unless its flag is set. Exactly the rooms of `Gate` are flagged,
     * their groups are appended in gate order, and the spawn log grows by the gate.
     */
    method SpawnRooms(roomOf: Vec2 -> nat)
      requires forall v :: roomOf(v) < |rooms|
      modifies this`rooms, this`enemies, this`spawnLog
      ensures rooms == FlagAll(old(rooms), Gate(old(rooms), RoomsAt(roomOf, old(Positions()))))
      ensures enemies == old(enemies) + MobGroups(old(rooms), Gate(old(rooms), RoomsAt(roomOf, old(Positions()))), |players|)
      ensures spawnLog == old(spawnLog) + Gate(old(rooms), RoomsAt(roomOf, old(Positions())))
      ensures old(SpawnedOnce()) ==> SpawnedOnce()
    {
      ghost var rs := RoomsAt(roomOf, Positions());
      VisitRooms(roomOf, rs, rooms, enemies, spawnLog);
      if old(SpawnedOnce()) {
        GateKeepsOnce(old(rooms), old(spawnLog), rs);
      }
    }

    /** The loop of the room gate, over the rooms `rs` the players stand in. */
    method VisitRooms(roomOf: Vec2 -> nat, ghost rs: seq<nat>, ghost rooms0: seq<Room>, ghost enemies0: seq<Enemy>,
                      ghost log0: seq<nat>)
      requires |rs| == |players| && forall j :: 0 <= j < |rs| ==> rs[j] == roomOf(players[j].pos) && rs[j] < |rooms0|
      requires rooms == rooms0 && enemies == enemies0 && spawnLog == log0
      modifies this`rooms, this`enemies, this`spawnLog
      ensures rooms == FlagAll(rooms0, Gate(rooms0, rs))
      ensures enemies == enemies0 + MobGroups(rooms0, Gate(rooms0, rs), |players|)
      ensures spawnLog == log0 + Gate(rooms0, rs)
    {
      assert rs[..0] == [] && enemies0 + [] == enemies0 && log0 + [] == log0;
      var k := 0;
      while k < |players|
        invariant 0 <= k <= |players|
        invariant rooms == FlagAll(rooms0, Gate(rooms0, rs[..k]))
        invariant enemies == enemies0 + MobGroups(rooms0, Gate(rooms0, rs[..k]), |players|)
        invariant spawnLog == log0 + Gate(rooms0, rs[..k])
      {
        var r := roomOf(players[k].pos);
        assert r == rs[k];
        ghost var next := rs[..k + 1];
        assert next == rs[..k] + [r];
        VisitRoom(r, rooms0, rs[..k], next, enemies0, log0);
        k := k + 1;
      }
      assert rs[..k] == rs;
    }

    /**
     * One player's turn at the room gate: room `r` spawns its mob group unless
     * its flag is set. Given the state after the gate for the players `rs` before
     * this one, it leaves the state after the gate for `rs + [r]`.
     */
    method VisitRoom(r: nat, ghost rooms0: seq<Room>, ghost rs: seq<nat>, ghost next: seq<nat>, ghost enemies0: seq<Enemy>, ghost log0: seq<nat>)
      requires r < |rooms0| && forall j :: 0 <= j < |rs| ==> rs[j] < |rooms0|
      requires next == rs + [r]
      requires rooms == FlagAll(rooms0, Gate(rooms0, rs))
      requires enemies == enemies0 + MobGroups(rooms0, Gate(rooms0, rs), |players|)
      requires spawnLog == log0 + Gate(rooms0, rs)
      modifies this`rooms, this`enemies, this`spawnLog
      ensures rooms == FlagAll(rooms0, Gate(rooms0, next))
      ensures enemies == enemies0 + MobGroups(rooms0, Gate(rooms0, next), |players|)
      ensures spawnLog == log0 + Gate(rooms0, next)
    {
      ghost var gate := Gate(rooms0, rs);
      ghost var before := MobGroups(rooms0, gate, |players|);
      if !rooms[r].mobsSpawned {
        assert rooms[r] == rooms0[r] by {
          GateSnoc(rooms0, rs, r, |players|);
        }
        SpawnMobGroup(r);
        assert rooms == FlagAll(rooms0, Gate(rooms0, rs + [r])) by {
          GateSnoc(rooms0, rs, r, |players|);
        }
        assert enemies == enemies0 + MobGroups(rooms0, Gate(rooms0, rs + [r]), |players|) by {
          GateSnoc(rooms0, rs, r, |players|);
          AppendAssoc(enemies0, before, Group(rooms0[r], |players|));
        }
        assert spawnLog == log0 + Gate(rooms0, rs + [r]) by {
          GateSnoc(rooms0, rs, r, |players|);
          AppendAssoc(log0, gate, [r]);
        }
      } else {
        assert Gate(rooms0, rs + [r]) == gate by {
          GateSnoc(rooms0, rs, r, |players|);
        }
      }
    }

    /** The drop loop of `tick`: one item per removed enemy, each from the next draw of the engine. */
    method DropLoot(gone: Enemy -> bool)
      modifies this`enemyProjectiles, this`drawsTaken
      ensures enemyProjectiles == old(enemyProjectiles) + Drops(enemies, gone, rng, old(drawsTaken))
      ensures drawsTaken == old(drawsTaken) + |Dead(enemies, gone)|
    {
      var i := 0;
      while i < |enemies|
        invariant 0 <= i <= |enemies|
        invariant enemyProjectiles == old(enemyProjectiles) + Drops(enemies[..i], gone, rng, old(drawsTaken))
        invariant drawsTaken == old(drawsTaken) + |Dead(enemies[..i], gone)|
      {
        DeadSnoc(enemies[..i], enemies[i], gone);
        DropsSnoc(enemies[..i], enemies[i], gone, rng, old(drawsTaken));
        assert enemies[..i + 1] == enemies[..i] + [enemies[i]];
        if gone(enemies[i]) {
          var seed := rng(drawsTaken);
          drawsTaken := drawsTaken + 1;
          enemyProjectiles := enemyProjectiles + [LootAt(enemies[i].pos, seed)];
        }
        i := i + 1;
      }
      assert enemies[..i] == enemies;
    }

    /** The particle spawns of `updateProjectile` for one projectile list. */
    method EmitSparks(ps: seq<Projectile>)
      modifies this`particleSpawns
      ensures particleSpawns == old(particleSpawns) + Sparks(ps)
    {
      var i := 0;
      while i < |ps|
        invariant 0 <= i <= |ps|
        invariant particleSpawns == old(particleSpawns) + Sparks(ps[..i])
      {
        SparksSnoc(ps[..i], ps[i]);
        assert ps[..i + 1] == ps[..i] + [ps[i]];
        var p := ps[i];
        if p.kind == Loot.Explosion {
          particleSpawns := particleSpawns + [Spawn(p.pos, "explosion")];
        } else if p.kind == Loot.Hit1 || (p.kind == Loot.Arrow || p.kind == Loot.BouncyArrow || p.kind == Loot.IcePillar) {
          particleSpawns := particleSpawns + [Spawn(p.pos, "blu")];
        }
        i := i + 1;
      }
      assert ps[..i] == ps;
    }

    /** The `checkSpells` calls of `tick`: every player's spells advance by one step; nothing else about a player changes. */
    method ApplySpellSteps(step: (nat, nat, Spell) -> Spell)
      requires Valid()
      modifies players
      ensures Valid()
      ensures forall k :: 0 <= k < |players| ==>
                && players[k].spells == StepSpells(old(players[k].spells), step, k)
                && players[k].gold == old(players[k].gold)
                && players[k].id == old(players[k].id) && players[k].ai == old(players[k].ai)
                && players[k].mounted == old(players[k].mounted) && players[k].pos == old(players[k].pos)
    {
      var k := 0;
      while k < |players|
        invariant 0 <= k <= |players| && Valid()
        invariant forall m :: 0 <= m < |players| ==>
                    && players[m].spells == (if m < k then StepSpells(old(players[m].spells), step, m) else old(players[m].spells))
                    && players[m].gold == old(players[m].gold)
                    && players[m].id == old(players[m].id) && players[m].ai == old(players[m].ai)
                    && players[m].mounted == old(players[m].mounted) && players[m].pos == old(players[m].pos)
      {
        players[k].CheckSpells(step, k);
        k := k + 1;
      }
    }

    /** One enemy projectile's pickup against every player it touches. */
    method PickUp(p: Projectile, touches: (Projectile, nat) -> bool)
      requires Valid()
      modifies players
      ensures Valid()
      ensures forall k :: 0 <= k < |players| ==>
                && players[k].gold == AddU32(old(players[k].gold), Gain(p, touches, k))
                && players[k].spells ==
                     (if touches(p, k) && p.kind == Loot.CooldownReset then Reset(old(players[k].spells)) else old(players[k].spells))
                && players[k].id == old(players[k].id) && players[k].ai == old(players[k].ai)
                && players[k].mounted == old(players[k].mounted) && players[k].pos == old(players[k].pos)
    {
      var k := 0;
      while k < |players|
        invariant 0 <= k <= |players| && Valid()
        invariant forall m :: 0 <= m < |players| ==>
                    && players[m].gold == (if m < k then AddU32(old(players[m].gold), Gain(p, touches, m)) else old(players[m].gold))
                    && players[m].spells ==
                         (if m < k && touches(p, m) && p.kind == Loot.CooldownReset then Reset(old(players[m].spells)) else old(players[m].spells))
                    && players[m].id == old(players[m].id) && players[m].ai == old(players[m].ai)
                    && players[m].mounted == old(players[m].mounted) && players[m].pos == old(players[m].pos)
      {
        PickUpBy(players[k], p, touches, k);
        k := k + 1;
      }
    }

    /** Player `k`'s side of one pickup: the effect of the projectile's kind, when it touches the player. */
    static method PickUpBy(q: Player, p: Projectile, touches: (Projectile, nat) -> bool, k: nat)
      requires q.Valid()
      modifies q
      ensures q.Valid()
      ensures q.gold == AddU32(old(q.gold), Gain(p, touches, k))
      ensures q.spells == if touches(p, k) && p.kind == Loot.CooldownReset then Reset(old(q.spells)) else old(q.spells)
      ensures q.id == old(q.id) && q.ai == old(q.ai) && q.mounted == old(q.mounted) && q.pos == old(q.pos)
    {
      if touches(p, k) {
        match Loot.PickupFor(p.kind)
        case ResetCooldowns =>
          q.ResetCooldowns();
        case AddGold(a) =>
          q.AddGold(a);
        case NoPickupEffect =>
      }
    }

    /**
     * The enemy-projectile/player collisions of `tick`: a touching cooldown
     * reset makes every spell ready, touching gold adds its amount; nothing
     * else about a player changes.
     */
    method ApplyPickups(touches: (Projectile, nat) -> bool)
      requires Valid()
      modifies players
      ensures Valid()
      ensures forall k :: 0 <= k < |players| ==>
                && players[k].gold == GoldFold(old(players[k].gold), enemyProjectiles, touches, k)
                && players[k].spells == AfterPickups(old(players[k].spells), enemyProjectiles, touches, k)
                && players[k].id == old(players[k].id) && players[k].ai == old(players[k].ai)
                && players[k].mounted == old(players[k].mounted) && players[k].pos == old(players[k].pos)
    {
      var j := 0;
      while j < |enemyProjectiles|
        invariant 0 <= j <= |enemyProjectiles| && Valid()
        invariant forall k :: 0 <= k < |players| ==>
                    && players[k].gold == GoldFold(old(players[k].gold), enemyProjectiles[..j], touches, k)
                    && players[k].spells == AfterPickups(old(players[k].spells), enemyProjectiles[..j], touches, k)
                    && players[k].id == old(players[k].id) && players[k].ai == old(players[k].ai)
                    && players[k].mounted == old(players[k].mounted) && players[k].pos == old(players[k].pos)
      {
        forall k | 0 <= k < |players|
          ensures GoldFold(old(players[k].gold), enemyProjectiles[..j + 1], touches, k) ==
                    AddU32(GoldFold(old(players[k].gold), enemyProjectiles[..j], touches, k), Gain(enemyProjectiles[j], touches, k))
          ensures AfterPickups(old(players[k].spells), enemyProjectiles[..j + 1], touches, k) ==
                    if touches(enemyProjectiles[j], k) && enemyProjectiles[j].kind == Loot.CooldownReset
                    then Reset(AfterPickups(old(players[k].spells), enemyProjectiles[..j], touches, k))
                    else AfterPickups(old(players[k].spells), enemyProjectiles[..j], touches, k)
        {
          PickupStep(old(players[k].gold), old(players[k].spells), enemyProjectiles, j, touches, k);
        }
        PickUp(enemyProjectiles[j], touches);
        j := j + 1;
      }
      assert enemyProjectiles[..j] == enemyProjectiles;
    }

    /** The player AI turn of `tick`: an AI-driven player's attack slots follow the AI's decision. */
    method ApplyAIAttacks(attack: nat -> bool)
      requires Valid()
      modifies players
      ensures Valid()
      ensures forall k :: 0 <= k < |players| ==>
                && players[k].spells == AfterAI(old(players[k].spells), old(players[k].ai), attack(k))
                && players[k].gold == old(players[k].gold)
                && players[k].id == old(players[k].id) && players[k].ai == old(players[k].ai)
                && players[k].mounted == old(players[k].mounted) && players[k].pos == old(players[k].pos)
    {
      var k := 0;
      while k < |players|
        invariant 0 <= k <= |players| && Valid()
        invariant forall m :: 0 <= m < |players| ==>
                    && players[m].spells ==
                         (if m < k then AfterAI(old(players[m].spells), old(players[m].ai), attack(m)) else old(players[m].spells))
                    && players[m].gold == old(players[m].gold)
                    && players[m].id == old(players[m].id) && players[m].ai == old(players[m].ai)
                    && players[m].mounted == old(players[m].mounted) && players[m].pos == old(players[m].pos)
      {
        var ai := players[k].ai;
        if ai != NoAI {
          players[k].SetAttacking(0, attack(k));
          players[k].SetAttacking(2, attack(k));
        }
        k := k + 1;
      }
    }

    /** Loot for the removed enemies, then the room gate for every player. */
    method DropsAndRooms(c: Collaborators)
      requires forall v :: c.roomOf(v) < |rooms|
      modifies this`enemies, this`enemyProjectiles, this`rooms, this`drawsTaken, this`spawnLog
      ensures drawsTaken == old(drawsTaken) + |Dead(old(enemies), c.enemyGone)|
      ensures enemyProjectiles == old(enemyProjectiles) + Drops(old(enemies), c.enemyGone, rng, old(drawsTaken))
      ensures rooms == FlagAll(old(rooms), Gate(old(rooms), RoomsAt(c.roomOf, old(Positions()))))
      ensures enemies == old(enemies) + MobGroups(old(rooms), Gate(old(rooms), RoomsAt(c.roomOf, old(Positions()))), |players|)
      ensures spawnLog == old(spawnLog) + Gate(old(rooms), RoomsAt(c.roomOf, old(Positions())))
      ensures old(SpawnedOnce()) ==> SpawnedOnce()
    {
      DropLoot(c.enemyGone);
      SpawnRooms(c.roomOf);
    }

    /** The particle spawns of both projectile lists, then the removals. */
    method SparksAndRemovals(c: Collaborators)
      modifies this`enemies, this`projectiles, this`enemyProjectiles, this`particleSpawns
      ensures particleSpawns == old(particleSpawns) + Sparks(old(projectiles)) + Sparks(old(enemyProjectiles))
      ensures projectiles == RemoveIf(old(projectiles), c.projectileGone)
      ensures enemyProjectiles == RemoveIf(old(enemyProjectiles), c.projectileGone)
      ensures enemies == RemoveIf(old(enemies), c.enemyGone)
    {
      EmitSparks(projectiles);
      EmitSparks(enemyProjectiles);
      projectiles := RemoveIf(projectiles, c.projectileGone);
      enemyProjectiles := RemoveIf(enemyProjectiles, c.projectileGone);
      enemies := RemoveIf(enemies, c.enemyGone);
    }

    /** The world part of the state, as a value. */
    ghost function WorldNow(): World
      reads this`enemies, this`projectiles, this`enemyProjectiles, this`particleSpawns, this`drawsTaken
      reads this`rooms, this`spawnLog
    {
      World(enemies, projectiles, enemyProjectiles, particleSpawns, drawsTaken, rooms, spawnLog)
    }

    /**
     * The part of `tick` that works on the world: drops loot for the removed
     * enemies, opens the rooms the players stand in, queues the particle spawns
     * of flying projectiles and removes whatever should be removed.
     */
    method WorldPhase(c: Collaborators)
      requires forall v :: c.roomOf(v) < |rooms|
      modifies this`enemies, this`projectiles, this`enemyProjectiles, this`rooms
      modifies this`particleSpawns, this`drawsTaken, this`spawnLog
      ensures WorldNow() == WorldAfter(c, rng, |players|, old(WorldNow()), old(Positions()))
    {
      DropsAndRooms(c);
      LootIsDark(old(enemies), c.enemyGone, rng, old(drawsTaken), old(enemyProjectiles));
      SparksAndRemovals(c);
    }

    /** Where the players stand, in order. */
    ghost function Positions(): (r: seq<Vec2>)
      reads players
      ensures |r| == |players| && forall k :: 0 <= k < |players| ==> r[k] == players[k].pos
    {
      seq(|players|, k requires 0 <= k < |players| reads players => players[k].pos)
    }

    /** Every player's view, in order. */
    ghost function Views(): (r: seq<PlayerView>)
      reads players
      ensures |r| == |players| && forall k :: 0 <= k < |players| ==> r[k] == players[k].View()
    {
      seq(|players|, k requires 0 <= k < |players| reads players => players[k].View())
    }

    /** The part of `tick` that works on the players: spell updates, pickups, then the player AI's attack decisions. */
    method PlayerPhase(c: Collaborators)
      requires Valid()
      modifies players
      ensures Valid()
      ensures forall k :: 0 <= k < |players| ==>
                players[k].View() == PlayerAfter(c, old(players[k].View()), enemyProjectiles, k)
    {
      ApplySpellSteps(c.spellStep);
      ApplyPickups(c.touches);
      ApplyAIAttacks(c.attack);
    }

    /** The world phase, then the player phase, of one tick. */
    method Step(c: Collaborators)
      requires Valid()
      requires forall v :: c.roomOf(v) < |rooms|
      modifies this`enemies, this`projectiles, this`enemyProjectiles, this`rooms
      modifies this`particleSpawns, this`drawsTaken, this`spawnLog, players
      ensures Valid()
      ensures WorldNow() == WorldAfter(c, rng, |players|, old(WorldNow()), old(Positions()))
      ensures forall k :: 0 <= k < |players| ==>
                players[k].View() == PlayerAfter(c, old(players[k].View()), enemyProjectiles, k)
      ensures Stepped(c, rng, old(WorldNow()), old(Views()), WorldNow(), Views())
    {
      ghost var v0 := Views();
      assert Positions() == PositionsOf(v0);
      WorldPhase(c);
      PlayerPhase(c);
    }

    /**
     * `tick`: counts the tick, runs the world and player phases, and answers
     * whether the game is to stop.
     */
    method Tick(c: Collaborators) returns (stopNow: bool)
      requires Valid()
      requires forall v :: c.roomOf(v) < |rooms|
      modifies this`updatesSinceLastFrame, this`enemies, this`projectiles, this`enemyProjectiles, this`rooms
      modifies this`particleSpawns, this`drawsTaken, this`spawnLog, players
      ensures Valid()
      ensures stopNow == stop
      ensures updatesSinceLastFrame == old(updatesSinceLastFrame) + 1
      ensures Stepped(c, rng, old(WorldNow()), old(Views()), WorldNow(), Views())
    {
      updatesSinceLastFrame := updatesSinceLastFrame + 1;
      Step(c);
      stopNow := stop;
    }

    /** `exit`: asks the run loop to stop after its current tick. */
    method Exit()
      modifies this`stop
      ensures stop
    {
      stop := true;
    }

    /** Starts an effect with a full countdown for each queued spawn, in queue order, and clears the queue. */
    method LaunchSpawns()
      modifies this`particles, this`particleSpawns
      ensures particles == old(particles) + Launch(old(particleSpawns))
      ensures particleSpawns == []
    {
      var i := 0;
      while i < |particleSpawns|
        invariant 0 <= i <= |particleSpawns| && particleSpawns == old(particleSpawns)
        invariant particles == old(particles) + Launch(particleSpawns[..i])
      {
        assert Launch(particleSpawns[..i + 1]) == Launch(particleSpawns[..i]) + [Effect(LIFETIME, particleSpawns[i])];
        particles := particles + [Effect(LIFETIME, particleSpawns[i])];
        i := i + 1;
      }
      assert particleSpawns[..i] == particleSpawns;
      particleSpawns := [];
    }

    /** Counts every countdown down, in place, by the ticks since the previous frame, stopping at zero. */
    method DecayParticles()
      modifies this`particles
      ensures particles == DecayAll(old(particles), updatesSinceLastFrame)
    {
      var i := 0;
      while i < |particles|
        invariant 0 <= i <= |particles| == |old(particles)|
        invariant forall k :: 0 <= k < i ==>
                    particles[k] == old(particles)[k].(countdown := Decay(old(particles)[k].countdown, updatesSinceLastFrame))
        invariant forall k :: i <= k < |particles| ==> particles[k] == old(particles)[k]
      {
        var c := particles[i].countdown;
        if c > updatesSinceLastFrame {
          particles := particles[i := particles[i].(countdown := c - updatesSinceLastFrame)];
        } else {
          particles := particles[i := particles[i].(countdown := 0)];
        }
        i := i + 1;
      }
    }

    /** `std::remove_if` and `erase`: shifts every running effect down to the write position, then cuts the tail. */
    method EraseExpired()
      modifies this`particles
      ensures particles == Survivors(old(particles))
    {
      var w := 0;
      var i := 0;
      while i < |particles|
        invariant 0 <= w <= i <= |particles| == |old(particles)|
        invariant particles[..w] == Survivors(old(particles)[..i])
        invariant forall k :: i <= k < |particles| ==> particles[k] == old(particles)[k]
      {
        assert old(particles)[..i + 1] == old(particles)[..i] + [old(particles)[i]];
        RemoveIfSnoc(old(particles)[..i], old(particles)[i], Expired);
        assert particles[i] == old(particles)[i];
        if particles[i].countdown != 0 {
          particles := particles[w := particles[i]];
          w := w + 1;
        }
        i := i + 1;
      }
      assert old(particles)[..i] == old(particles);
      particles := particles[..w];
    }

    /**
     * The particle part of `updateDisplay`: start an effect with countdown 30
     * for each queued spawn, count every countdown down by the ticks since the
     * previous frame, erase the effects that reached zero, and start counting
     * ticks again.
     */
    method UpdateDisplay()
      requires Valid()
      modifies this`particles, this`particleSpawns, this`updatesSinceLastFrame
      ensures Valid()
      ensures particles == NextFrame(old(particles), old(particleSpawns), old(updatesSinceLastFrame))
      ensures particleSpawns == [] && updatesSinceLastFrame == 0
    {
      NextFrameRunning(particles, particleSpawns, updatesSinceLastFrame);
      LaunchSpawns();
      DecayParticles();
      EraseExpired();
      updatesSinceLastFrame := 0;
    }

    /**
     * One pass of the `run` loop: the tick, with an `exit` from another thread
     * taking the lock just before it if there is one, and, unless the tick
     * answered stop, the schedule step. The tick reads the stop flag only for
     * its answer, so the exit is applied after the tick's own updates and the
     * answer is then stop; state and answer are those of an exit before it.
     */
    method Pass(f: Frame) returns (stopped: bool, ghost w: World, ghost v: seq<PlayerView>)
      requires Valid()
      requires forall v :: f.c.roomOf(v) < |rooms|
      modifies this`updatesSinceLastFrame, this`enemies, this`projectiles, this`enemyProjectiles, this`rooms
      modifies this`particleSpawns, this`drawsTaken, this`spawnLog, this`stop, this`lastUpdate, players
      ensures Valid() && |rooms| == |old(rooms)|
      ensures stopped == stop == (old(stop) || f.exitFirst)
      ensures updatesSinceLastFrame == old(updatesSinceLastFrame) + 1
      ensures lastUpdate == if stopped then old(lastUpdate) else Scheduler.NextPlan(old(lastUpdate), f.now).lastUpdate
      ensures old(SpawnedOnce()) ==> SpawnedOnce()
      ensures w == WorldNow() && |v| == |players| && forall k :: 0 <= k < |players| ==> v[k] == players[k].View()
      ensures Stepped(f.c, rng, old(WorldNow()), old(Views()), w, v)
    {
      ghost var w0, v0 := WorldNow(), Views();
      stopped := Tick(f.c);
      w, v := WorldNow(), Views();
      if old(SpawnedOnce()) {
        WorldStepKeepsOnce(f.c, rng, |players|, w0, PositionsOf(v0));
      }
      if f.exitFirst {
        Exit();
        stopped := true;
      }
      if !stopped {
        // The sleep of `plan.sleep` microseconds is not modelled.
        var plan := Scheduler.NextPlan(lastUpdate, f.now);
        lastUpdate := plan.lastUpdate;
      }
    }

    /**
     * `run`: sets the schedule to `start`, then ticks once per pass until a tick
     * answers that the game stops (or the passes run out); after each tick that
     * does not stop, the schedule advances by `Scheduler.NextPlan`.
     */
    method Run(start: int, frames: seq<Frame>) returns (ticks: nat, ghost ws: seq<World>, ghost vs: seq<seq<PlayerView>>)
      requires Valid()
      requires forall i, v :: 0 <= i < |frames| ==> frames[i].c.roomOf(v) < |rooms|
      modifies this`updatesSinceLastFrame, this`enemies, this`projectiles, this`enemyProjectiles, this`rooms
      modifies this`particleSpawns, this`drawsTaken, this`spawnLog, this`stop, this`lastUpdate, players
      ensures Valid()
      ensures ticks == RunLength(old(stop), frames)
      ensures ticks < |frames| ==> stop
      ensures updatesSinceLastFrame == ticks
      ensures ticks > 0 && !stop ==> frames[ticks - 1].now - lastUpdate <= 2 * Scheduler.TICK_TIME
      ensures old(SpawnedOnce()) ==> SpawnedOnce()
      ensures |ws| == ticks + 1 && Trace(rng, frames, ws, vs)
      ensures ws[0] == old(WorldNow()) && vs[0] == old(Views())
      ensures ws[ticks] == WorldNow() && vs[ticks] == Views()
    {
      lastUpdate := start;
      updatesSinceLastFrame := 0;
      ticks := 0;
      ws, vs := [WorldNow()], [Views()];
      var stopped := false;
      while ticks < |frames| && !stopped
        invariant 0 <= ticks <= |frames| && Valid() && |rooms| == old(|rooms|)
        invariant updatesSinceLastFrame == ticks
        invariant ticks == 0 ==> !stopped && stop == old(stop)
        invariant ticks > 0 ==> (stopped <==> stop)
        invariant !stopped ==> RunLength(old(stop), frames) == ticks + RunLength(stop, frames[ticks..])
        invariant stopped ==> RunLength(old(stop), frames) == ticks
        invariant ticks > 0 && !stopped ==> frames[ticks - 1].now - lastUpdate <= 2 * Scheduler.TICK_TIME
        invariant old(SpawnedOnce()) ==> SpawnedOnce()
        invariant |ws| == ticks + 1 && Trace(rng, frames, ws, vs)
        invariant ws[0] == old(WorldNow()) && vs[0] == old(Views())
        invariant ws[ticks] == WorldNow() && vs[ticks] == Views()
      {
        assert frames[ticks..][1..] == frames[ticks + 1..];
        ghost var w, v;
        stopped, w, v := Pass(frames[ticks]);
        assert v == Views();
        TraceSnoc(rng, frames, ws, vs, w, v);
        ws, vs := ws + [w], vs + [v];
        ticks := ticks + 1;
      }
    }
  }
}

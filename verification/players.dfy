/**
 * Players (`source/Player.cpp`): the four character classes and their fixed
 * spell tables, the per-player state the simulation updates in place (spell
 * timers and attack flags, gold, the mount flag, the AI key) and the order in
 * which a player's numbers are saved and loaded.
 */
module Players {
  import opened Types

  /** The character classes. */
  datatype PlayerId = Archer | Mage | Tank | Warrior

  /** Archers and mages fight at range; tanks and warriors in contact. */
  predicate IsRanged(id: PlayerId) {
    id == Archer || id == Mage
  }

  /** AI keys; `NoAI` is the key 0 of a player steered by a keyboard or joystick. */
  datatype AI = NoAI | ChasePlayer | LeaderContact | LeaderDistance | CompanionContact | CompanionDistance

  /** Spell kinds; `Code(n)` is a raw enumerator value written as a number in the tables. */
  datatype SpellKind = ArrowShot | Jump | ArrowUlti | FireBall | FrostWall | Hit1 | Hit2 | Dash | Code(n: nat)

  /**
   * A spell slot: its kind, its cooldown and active window in ticks (the two
   * numbers of the factory tables), the ticks left before it is ready again,
   * and whether its owner is asking to cast it.
   */
  datatype Spell = Spell(kind: SpellKind, cooldown: nat, duration: nat, timeLeft: U32, active: bool)

  /** A spell as the factory tables build it: ready, and not being cast. */
  function NewSpell(kind: SpellKind, cooldown: nat, duration: nat): Spell {
    Spell(kind, cooldown, duration, 0, false)
  }

  /** Every player holds exactly three spells (`Vect<3u, Spell>`). */
  const SPELL_COUNT: nat := 3

  /** A spell that can be cast again. */
  predicate Ready(s: Spell) {
    s.timeLeft == 0
  }

  /** The arguments the factories pass to the `Player` constructor. */
  datatype Profile = Profile(id: PlayerId, spells: seq<Spell>, health: nat, radius: real, pos: Vec2)

  function MakeArcher(pos: Vec2): Profile {
    Profile(Archer,
            [NewSpell(ArrowShot, 60, 10), NewSpell(Jump, 240, 30), NewSpell(ArrowUlti, 2400, 480)],
            300, 0.5, pos)
  }

  function MakeMage(pos: Vec2): Profile {
    Profile(Mage,
            [NewSpell(FireBall, 90, 10), NewSpell(Code(0), 240, 30), NewSpell(FrostWall, 2400, 480)],
            300, 0.5, pos)
  }

  function MakeTank(pos: Vec2): Profile {
    Profile(Tank,
            [NewSpell(Hit2, 200, 200), NewSpell(Dash, 480, 30), NewSpell(ArrowUlti, 2400, 480)],
            600, 0.5, pos)
  }

  function MakeWarrior(pos: Vec2): Profile {
    Profile(Warrior,
            [NewSpell(Hit1, 60, 60), NewSpell(Dash, 480, 30), NewSpell(ArrowUlti, 2400, 480)],
            600, 0.5, pos)
  }

  /**
   * A profile the game can run: three spells, each ready, not cast, and with an
   * active window that fits inside its cooldown; radius one half.
   */
  predicate WellFormed(p: Profile) {
    && |p.spells| == SPELL_COUNT
    && p.radius == 0.5
    && forall i :: 0 <= i < |p.spells| ==>
         p.spells[i].duration <= p.spells[i].cooldown && Ready(p.spells[i]) && !p.spells[i].active
  }

  /** Every factory builds a well-formed profile; ranged classes get 300 health, melee classes 600. */
  lemma FactoryTables(pos: Vec2)
    ensures WellFormed(MakeArcher(pos)) && MakeArcher(pos).health == 300 && MakeArcher(pos).id == Archer
    ensures WellFormed(MakeMage(pos)) && MakeMage(pos).health == 300 && MakeMage(pos).id == Mage
    ensures WellFormed(MakeTank(pos)) && MakeTank(pos).health == 600 && MakeTank(pos).id == Tank
    ensures WellFormed(MakeWarrior(pos)) && MakeWarrior(pos).health == 600 && MakeWarrior(pos).id == Warrior
  {
  }

  /**
   * `makePlayer`: the factory for the requested class. The source sends any
   * id that is not archer, warrior or mage to the tank factory; with the four
   * classes as a closed datatype, that branch is reached by the tank alone.
   */
  function MakePlayer(pos: Vec2, id: PlayerId): (p: Profile)
    ensures p.id == id && p.pos == pos
    ensures WellFormed(p)
    ensures p.health == if IsRanged(id) then 300 else 600
    ensures id == Archer ==> p == MakeArcher(pos)
    ensures id == Warrior ==> p == MakeWarrior(pos)
    ensures id == Mage ==> p == MakeMage(pos)
    ensures id == Tank ==> p == MakeTank(pos)
  {
    match id
    case Archer => MakeArcher(pos)
    case Warrior => MakeWarrior(pos)
    case Mage => MakeMage(pos)
    case _ => MakeTank(pos)
  }

  /** Every spell's timer at zero; nothing else touched. */
  function Reset(ss: seq<Spell>): (r: seq<Spell>)
    ensures |r| == |ss|
  {
    if ss == [] then [] else [ss[0].(timeLeft := 0)] + Reset(ss[1..])
  }

  /** `Reset` makes each spell ready and keeps its kind, tables and attack flag. */
  lemma {:induction false} ResetPointwise(ss: seq<Spell>)
    ensures |Reset(ss)| == |ss|
    ensures forall i :: 0 <= i < |ss| ==> Reset(ss)[i] == ss[i].(timeLeft := 0)
  {
    if ss != [] {
      ResetPointwise(ss[1..]);
    }
  }

  /** A second reset right after the first changes nothing. */
  lemma ResetIdempotent(ss: seq<Spell>)
    ensures Reset(Reset(ss)) == Reset(ss)
  {
    ResetPointwise(ss);
    ResetPointwise(Reset(ss));
  }

  /**
   * Every spell after `checkSpells` for the player at index `k`: slot `i`
   * becomes what `step(k, i, ·)` (the spell's own `update`) makes of it.
   */
  function StepSpells(ss: seq<Spell>, step: (nat, nat, Spell) -> Spell, k: nat): seq<Spell> {
    seq(|ss|, i requires 0 <= i < |ss| => step(k, i, ss[i]))
  }

  /** Both attacking slots (0 and 2) set to `b`, as an AI-driven player's turn does. */
  function SetBothAttacks(ss: seq<Spell>, b: bool): seq<Spell>
    requires |ss| == SPELL_COUNT
  {
    ss[0 := ss[0].(active := b)][2 := ss[2].(active := b)]
  }

  /** `s` holds the spells of `s0` with, at most, other countdowns. */
  predicate RetimedOnly(s0: seq<Spell>, s: seq<Spell>) {
    |s| == |s0| && forall k :: 0 <= k < |s0| ==> s[k] == s0[k].(timeLeft := s[k].timeLeft)
  }

  /** The remaining-cooldown numbers of a spell list, in slot order. */
  function Timers(ss: seq<Spell>): seq<U32> {
    seq(|ss|, i requires 0 <= i < |ss| => ss[i].timeLeft)
  }

  /** One value in a save stream, tagged with the type its `serialize` overload writes. */
  datatype Field = IdField(id: PlayerId) | Num(n: U32)

  /** What a save keeps of a player. */
  datatype Saved = Saved(id: PlayerId, gold: U32, timers: seq<U32>)

  /** The number of fields one player occupies in a save stream. */
  const RECORD_LENGTH: nat := 2 + SPELL_COUNT

  /** The fields `serialize` writes: the class id, the gold, then each spell's timer. */
  function Encode(s: Saved): seq<Field> {
    [IdField(s.id), Num(s.gold)] + seq(|s.timers|, i requires 0 <= i < |s.timers| => Num(s.timers[i]))
  }

  /** The record `unserialize` reads from the front of a stream, if the fields there have the right types. */
  function Decode(fs: seq<Field>): (r: Option<Saved>)
    ensures r.Some? ==> |fs| >= RECORD_LENGTH && |r.value.timers| == SPELL_COUNT
    ensures r.Some? ==> Encode(r.value) == fs[..RECORD_LENGTH]
  {
    if |fs| >= RECORD_LENGTH && fs[0].IdField? && fs[1].Num? && fs[2].Num? && fs[3].Num? && fs[4].Num?
    then Some(Saved(fs[0].id, fs[1].n, [fs[2].n, fs[3].n, fs[4].n]))
    else None
  }

  /** Reading back what was written restores id, gold and every timer, whatever follows in the stream. */
  lemma DecodeEncode(s: Saved, rest: seq<Field>)
    requires |s.timers| == SPELL_COUNT
    ensures Decode(Encode(s) + rest) == Some(s)
  {
    var fs := Encode(s) + rest;
    assert fs[0] == IdField(s.id) && fs[1] == Num(s.gold);
    assert fs[2] == Num(s.timers[0]) && fs[3] == Num(s.timers[1]) && fs[4] == Num(s.timers[2]);
    assert s.timers == [s.timers[0], s.timers[1], s.timers[2]];
  }

  /** A save stream being written (`SaveState`). */
  class SaveState {
    var fields: seq<Field>

    constructor ()
      ensures fields == []
    {
      fields := [];
    }

    /** `serialize(x)`: appends one field. */
    method Write(f: Field)
      modifies this
      ensures fields == old(fields) + [f]
    {
      fields := fields + [f];
    }
  }

  /** A save stream being read (`LoadGame`): the fields and a read position. */
  class LoadGame {
    const fields: seq<Field>
    var cursor: nat

    ghost predicate Valid()
      reads this
    {
      cursor <= |fields|
    }

    /** The fields not yet read. */
    ghost function Remaining(): seq<Field>
      reads this
      requires Valid()
    {
      fields[cursor..]
    }

    constructor (fs: seq<Field>)
      ensures Valid() && fields == fs && cursor == 0
    {
      fields, cursor := fs, 0;
    }

    /** `unserialize` into a class id. */
    method ReadId() returns (id: PlayerId)
      requires Valid() && cursor < |fields| && fields[cursor].IdField?
      modifies this`cursor
      ensures Valid() && cursor == old(cursor) + 1 && id == fields[old(cursor)].id
    {
      id := fields[cursor].id;
      cursor := cursor + 1;
    }

    /** `unserialize` into an unsigned number. */
    method ReadNum() returns (n: U32)
      requires Valid() && cursor < |fields| && fields[cursor].Num?
      modifies this`cursor
      ensures Valid() && cursor == old(cursor) + 1 && n == fields[old(cursor)].n
    {
      n := fields[cursor].n;
      cursor := cursor + 1;
    }
  }

  /** A player, updated in place by the simulation. */
  /** The fields of a player that a tick reads or writes, as a value. */
  datatype PlayerView = PlayerView(id: PlayerId, spells: seq<Spell>, gold: U32, mounted: bool, ai: AI, pos: Vec2)

  class Player {
    var id: PlayerId
    var spells: seq<Spell>
    var health: nat
    var radius: real
    var pos: Vec2
    var gold: U32
    var mounted: bool
    var ai: AI

    ghost predicate Valid()
      reads this
    {
      |spells| == SPELL_COUNT
    }

    /** The `Player` constructor the factories call; a new player has no gold, no mount and no AI. */
    constructor (p: Profile)
      requires |p.spells| == SPELL_COUNT
      ensures Valid()
      ensures id == p.id && spells == p.spells && health == p.health && radius == p.radius && pos == p.pos
      ensures gold == 0 && !mounted && ai == NoAI
    {
      id, spells, health, radius, pos := p.id, p.spells, p.health, p.radius, p.pos;
      gold, mounted, ai := 0, false, NoAI;
    }

    /** The fields a tick reads or writes. */
    ghost function View(): PlayerView
      reads this
    {
      PlayerView(id, spells, gold, mounted, ai, pos)
    }

    function GetId(): PlayerId
      reads this
    {
      id
    }

    /** `checkSpells`: each spell updated in slot order; the player is the one at index `k`. */
    method CheckSpells(step: (nat, nat, Spell) -> Spell, k: nat)
      requires Valid()
      modifies this`spells
      ensures Valid() && spells == StepSpells(old(spells), step, k)
    {
      var i := 0;
      while i < |spells|
        invariant 0 <= i <= |spells| == SPELL_COUNT
        invariant forall j :: 0 <= j < i ==> spells[j] == step(k, j, old(spells)[j])
        invariant forall j :: i <= j < |spells| ==> spells[j] == old(spells)[j]
      {
        spells := spells[i := step(k, i, spells[i])];
        i := i + 1;
      }
    }

    /** `resetCooldowns`: every spell ready again; nothing else changes. */
    method ResetCooldowns()
      requires Valid()
      modifies this`spells
      ensures Valid() && spells == Reset(old(spells))
    {
      ResetPointwise(spells);
      ghost var target := Reset(spells);
      var i := 0;
      while i < |spells|
        invariant 0 <= i <= |spells| == |target|
        invariant forall k :: 0 <= k < i ==> spells[k] == target[k]
        invariant forall k :: i <= k < |spells| ==> spells[k] == old(spells)[k]
      {
        spells := spells[i := spells[i].(timeLeft := 0)];
        i := i + 1;
      }
    }

    /** `addGold`: unsigned addition, wrapping at 2^32. */
    method AddGold(amount: U32)
      modifies this`gold
      ensures gold == AddU32(old(gold), amount)
    {
      gold := (gold + amount) % U32_LIMIT;
    }

    method SetMounted(b: bool)
      modifies this`mounted
      ensures IsMounted() == b
    {
      mounted := b;
    }

    function IsMounted(): bool
      reads this
    {
      mounted
    }

    /** `setAttacking`: the attack flag of one slot; the index is unchecked, so callers keep it below 3. */
    method SetAttacking(i: nat, b: bool)
      requires Valid() && i < SPELL_COUNT
      modifies this`spells
      ensures Valid() && spells == old(spells)[i := old(spells)[i].(active := b)]
    {
      spells := spells[i := spells[i].(active := b)];
    }

    /** `getSpellTimeleft`: the remaining cooldown in units of 12 ticks, rounded down. */
    function GetSpellTimeleft(i: nat): (r: nat)
      requires Valid() && i < SPELL_COUNT
      reads this
      ensures r * 12 <= spells[i].timeLeft < r * 12 + 12
    {
      spells[i].timeLeft / 12
    }

    /** `setAI` of the shared actor base. */
    method SetAI(a: AI)
      modifies this`ai
      ensures ai == a
    {
      ai := a;
    }

    /** What a save keeps of this player. */
    function Snapshot(): Saved
      reads this
    {
      Saved(id, gold, Timers(spells))
    }

    /** `serialize`: id, gold, then the three timers in slot order. */
    method Serialize(state: SaveState)
      requires Valid()
      modifies state
      ensures state.fields == old(state.fields) + Encode(Snapshot())
    {
      state.Write(IdField(id));
      state.Write(Num(gold));
      var i := 0;
      while i < |spells|
        invariant 0 <= i <= |spells|
        invariant state.fields == old(state.fields) + Encode(Saved(id, gold, Timers(spells[..i])))
      {
        assert Timers(spells[..i + 1]) == Timers(spells[..i]) + [spells[i].timeLeft];
        state.Write(Num(spells[i].timeLeft));
        i := i + 1;
      }
      assert spells[..i] == spells;
    }

    /**
     * `unserialize`: reads id, gold and the three timers in the order `serialize`
     * wrote them. The stream must hold such a record at the read position.
     */
    method Unserialize(game: LoadGame)
      requires Valid() && game.Valid() && Decode(game.Remaining()).Some?
      modifies this`id, this`gold, this`spells, game`cursor
      ensures Valid() && game.Valid()
      ensures Snapshot() == Decode(old(game.Remaining())).value
      ensures RetimedOnly(old(spells), spells)
      ensures game.cursor == old(game.cursor) + RECORD_LENGTH
    {
      ghost var rec := Decode(game.Remaining()).value;
      ghost var start := game.cursor;
      id := game.ReadId();
      gold := game.ReadNum();
      var i := 0;
      while i < SPELL_COUNT
        invariant 0 <= i <= SPELL_COUNT && Valid() && game.Valid()
        invariant game.cursor == start + 2 + i
        invariant id == rec.id && gold == rec.gold
        invariant forall k :: 0 <= k < i ==> spells[k].timeLeft == rec.timers[k]
        invariant forall k :: 0 <= k < SPELL_COUNT ==> spells[k] == old(spells[k]).(timeLeft := spells[k].timeLeft)
      {
        var t := game.ReadNum();
        spells := spells[i := spells[i].(timeLeft := t)];
        i := i + 1;
      }
    }
  }

  /** Saving a player and loading the stream into another copies id, gold and timers across. */
  method SaveAndLoad(from: Player, into: Player)
    requires from.Valid() && into.Valid()
    modifies into`id, into`gold, into`spells
    ensures into.Valid()
    ensures into.id == old(from.id) && into.gold == old(from.gold) && Timers(into.spells) == old(Timers(from.spells))
    ensures RetimedOnly(old(into.spells), into.spells)
    ensures into.mounted == old(into.mounted) && into.ai == old(into.ai) && into.pos == old(into.pos)
    ensures into.health == old(into.health) && into.radius == old(into.radius)
  {
    var state := new SaveState();
    from.Serialize(state);
    DecodeEncode(from.Snapshot(), []);
    assert state.fields == Encode(from.Snapshot()) + [];
    var game := new LoadGame(state.fields);
    into.Unserialize(game);
  }
}

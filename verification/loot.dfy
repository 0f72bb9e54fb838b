/**
 * Projectile types, the loot table a dying enemy draws from, and what a
 * dropped item does to the player who picks it up (`source/Logic.cpp`).
 */
module Loot {

  /**
   * The projectile types the simulation core names. Their numeric values are
   * declared in a header that is not part of this model; `Ordinal` fixes an
   * order in which GOLD, GOLD5, GOLD20, GOLD50 are consecutive and increasing,
   * which the pickup code relies on.
   */
  datatype ProjectileType =
    | Arrow | BouncyArrow | IcePillar | Hit1 | Explosion
    | Heal | CooldownReset | Gold | Gold5 | Gold20 | Gold50

  function Ordinal(t: ProjectileType): nat {
    match t
    case Arrow => 0
    case BouncyArrow => 1
    case IcePillar => 2
    case Hit1 => 3
    case Explosion => 4
    case Heal => 5
    case CooldownReset => 6
    case Gold => 7
    case Gold5 => 8
    case Gold20 => 9
    case Gold50 => 10
  }

  /** The types an enemy can drop. */
  predicate IsLoot(t: ProjectileType) {
    t == CooldownReset || t == Gold50 || t == Gold20 || t == Gold5 || t == Heal || t == Gold
  }

  /** Highest seed the drop distribution yields (`uniform_int_distribution<>(0, 15)`). */
  const MAX_SEED: int := 15

  /** The drop for a seed: the chain of comparisons in `tick`. */
  function DropFor(seed: int): (t: ProjectileType)
    ensures IsLoot(t)
  {
    if seed == 0 then CooldownReset
    else if seed == 1 then Gold50
    else if seed <= 3 then Gold20
    else if seed <= 6 then Gold5
    else if seed <= 10 then Heal
    else Gold
  }

  /** Over the seeds the generator yields, each drop owns one band of seeds. */
  lemma DropBands(seed: int)
    requires 0 <= seed <= MAX_SEED
    ensures DropFor(seed) == CooldownReset <==> seed == 0
    ensures DropFor(seed) == Gold50 <==> seed == 1
    ensures DropFor(seed) == Gold20 <==> 2 <= seed <= 3
    ensures DropFor(seed) == Gold5 <==> 4 <= seed <= 6
    ensures DropFor(seed) == Heal <==> 7 <= seed <= 10
    ensures DropFor(seed) == Gold <==> 11 <= seed <= 15
  {
  }

  /** How many of the seeds `0 .. n - 1` give drop `t`. */
  function SeedCount(t: ProjectileType, n: nat): (c: nat)
    ensures c <= n
  {
    if n == 0 then 0 else SeedCount(t, n - 1) + (if DropFor(n - 1) == t then 1 else 0)
  }

  /** The band of seeds `BandLo(t) .. BandHi(t) - 1` that gives drop `t`; empty for a type that is never dropped. */
  function BandLo(t: ProjectileType): nat {
    match t
    case CooldownReset => 0
    case Gold50 => 1
    case Gold20 => 2
    case Gold5 => 4
    case Heal => 7
    case Gold => 11
    case _ => 0
  }

  function BandHi(t: ProjectileType): nat {
    match t
    case CooldownReset => 1
    case Gold50 => 2
    case Gold20 => 4
    case Gold5 => 7
    case Heal => 11
    case Gold => 16
    case _ => 0
  }

  /** A seed the generator yields gives drop `t` exactly when it lies in `t`'s band. */
  lemma InBand(t: ProjectileType, seed: int)
    requires 0 <= seed <= MAX_SEED
    ensures DropFor(seed) == t <==> BandLo(t) <= seed < BandHi(t)
  {
    DropBands(seed);
  }

  /** Of the seeds `0 .. n - 1`, drop `t` takes those in its band. */
  lemma {:induction false} BandCount(t: ProjectileType, n: nat)
    requires n <= MAX_SEED + 1
    ensures SeedCount(t, n) ==
              if n <= BandLo(t) then 0 else if n <= BandHi(t) then n - BandLo(t) else BandHi(t) - BandLo(t)
  {
    if n > 0 {
      BandCount(t, n - 1);
      InBand(t, n - 1);
    }
  }

  /** All sixteen seeds counted: drop `t` takes the width of its band. */
  lemma BandTotal(t: ProjectileType)
    ensures SeedCount(t, 16) == BandHi(t) - BandLo(t)
  {
    BandCount(t, 16);
  }

  /** The seeds are spread 1/1/2/3/4/5 over the six drops, sixteen in all, and no other type is ever dropped. */
  lemma DropDistribution(t: ProjectileType)
    ensures SeedCount(CooldownReset, 16) == 1
    ensures SeedCount(Gold50, 16) == 1
    ensures SeedCount(Gold20, 16) == 2
    ensures SeedCount(Gold5, 16) == 3
    ensures SeedCount(Heal, 16) == 4
    ensures SeedCount(Gold, 16) == 5
    ensures !IsLoot(t) ==> SeedCount(t, 16) == 0
  {
    BandTotal(CooldownReset);
    BandTotal(Gold50);
    BandTotal(Gold20);
    BandTotal(Gold5);
    BandTotal(Heal);
    BandTotal(Gold);
    BandTotal(t);
  }

  /** The amounts `Vect<4u, unsigned int>(1u, 5u, 20u, 50u)` indexed by `type - GOLD`. */
  const GOLD_AMOUNTS: seq<nat> := [1, 5, 20, 50]

  /** The gold a pickup of type `t` gives, computed as the source does, from the ordinals. */
  function GoldFor(t: ProjectileType): (amount: nat)
    ensures amount == 0 || amount in GOLD_AMOUNTS
  {
    if Ordinal(Gold) <= Ordinal(t) <= Ordinal(Gold50) then GOLD_AMOUNTS[Ordinal(t) - Ordinal(Gold)] else 0
  }

  /** The gold each type is meant to carry, stated type by type. */
  function GoldByName(t: ProjectileType): nat {
    match t
    case Gold => 1
    case Gold5 => 5
    case Gold20 => 20
    case Gold50 => 50
    case _ => 0
  }

  /** The index arithmetic on ordinals gives each gold type its own amount and no other type any. */
  lemma GoldMatchesNames(t: ProjectileType)
    ensures GoldFor(t) == GoldByName(t)
    ensures GoldFor(t) > 0 <==> t in {Gold, Gold5, Gold20, Gold50}
  {
  }

  /** What a pickup does to the player it touches. */
  datatype Pickup = ResetCooldowns | AddGold(amount: nat) | NoPickupEffect

  /** The response to an enemy projectile touching a player. */
  function PickupFor(t: ProjectileType): (p: Pickup)
    ensures p == ResetCooldowns <==> t == CooldownReset
    ensures p.AddGold? <==> GoldByName(t) > 0
    ensures p.AddGold? ==> p.amount == GoldByName(t)
  {
    GoldMatchesNames(t);
    if t == CooldownReset then ResetCooldowns
    else if Ordinal(Gold) <= Ordinal(t) <= Ordinal(Gold50) then AddGold(GoldFor(t))
    else NoPickupEffect
  }
}

/** The engine's domain values. Every initialiser of the source clamps its
    numeric fields into fixed bounds; each `NewX` function below is such an
    initialiser, and `InRange` predicates name the bounds it guarantees. */
module PinataModels {
  import opened Basics

  /** Rarity, totally ordered by its raw value 0..4. */
  datatype Rarity = Common | Uncommon | Rare | Epic | Legendary {
    function Raw(): (n: nat)
      ensures n <= 4
    {
      match this
      case Common => 0
      case Uncommon => 1
      case Rare => 2
      case Epic => 3
      case Legendary => 4
    }

    /** The source's `<`. */
    predicate Below(other: Rarity) { Raw() < other.Raw() }

    /** The source's `>=`. */
    predicate AtLeast(other: Rarity) { !Below(other) }
  }

  /** `Below` is a strict total order, and the raw values identify a rarity. */
  lemma RarityStrictTotalOrder(a: Rarity, b: Rarity, c: Rarity)
    ensures !a.Below(a)
    ensures a.Below(b) && b.Below(c) ==> a.Below(c)
    ensures a == b || a.Below(b) || b.Below(a)
    ensures a.Raw() == b.Raw() ==> a == b
    ensures Common.Below(Uncommon) && Uncommon.Below(Rare) && Rare.Below(Epic) && Epic.Below(Legendary)
  {
  }

  datatype RewardKind = Coins | Candy | Boosters | Hearts | Keys | Tickets

  datatype BoosterKind = DoubleTap | Magnet | Shield | Frenzy | BonusDrop

  datatype EffectKind = TapPowerUp | TapSpeedUp | CritChanceUp | CritPowerUp | BonusMultiplierUp | DamageReduction

  datatype Reward = Reward(kind: RewardKind, amount: int, rarity: Rarity)

  function NewReward(kind: RewardKind, amount: int, rarity: Rarity): (r: Reward)
    ensures r.kind == kind && r.rarity == rarity
    ensures r.amount >= 0
    ensures amount >= 0 ==> r.amount == amount
    ensures amount < 0 ==> r.amount == 0
  {
    Reward(kind, Max(0, amount), rarity)
  }

  datatype Booster = Booster(kind: BoosterKind, seconds: int, rarity: Rarity)

  function NewBooster(kind: BoosterKind, seconds: int, rarity: Rarity): (b: Booster)
    ensures b.kind == kind && b.rarity == rarity
    ensures b.seconds >= 1
    ensures seconds >= 1 ==> b.seconds == seconds
    ensures seconds < 1 ==> b.seconds == 1
  {
    Booster(kind, Max(1, seconds), rarity)
  }

  datatype Effect = Effect(kind: EffectKind, value: real, seconds: int, rarity: Rarity)

  function NewEffect(kind: EffectKind, value: real, seconds: int, rarity: Rarity): (e: Effect)
    ensures e.kind == kind && e.value == value && e.rarity == rarity
    ensures e.seconds >= 1
    ensures seconds >= 1 ==> e.seconds == seconds
    ensures seconds < 1 ==> e.seconds == 1
  {
    Effect(kind, value, Max(1, seconds), rarity)
  }

  datatype TapEvent = TapEvent(at: real, power: real, isCritical: bool)

  function NewTapEvent(at: real, power: real, isCritical: bool): (t: TapEvent)
    ensures t.at == at && t.isCritical == isCritical
    ensures t.power >= 0.0
    ensures power >= 0.0 ==> t.power == power
    ensures power < 0.0 ==> t.power == 0.0
  {
    TapEvent(at, MaxR(0.0, power), isCritical)
  }

  datatype TapSnapshot = TapSnapshot(taps: int, totalDamage: real, criticals: int, streakBest: int, lastTapAt: real)
  {
    predicate InRange() {
      taps >= 0 && totalDamage >= 0.0 && criticals >= 0 && streakBest >= 0 && lastTapAt >= 0.0
    }
  }

  function NewTapSnapshot(taps: int, totalDamage: real, criticals: int, streakBest: int, lastTapAt: real): (s: TapSnapshot)
    ensures s.InRange()
    ensures TapSnapshot(taps, totalDamage, criticals, streakBest, lastTapAt).InRange() ==>
              s == TapSnapshot(taps, totalDamage, criticals, streakBest, lastTapAt)
    ensures taps >= 0 ==> s.taps == taps
    ensures totalDamage >= 0.0 ==> s.totalDamage == totalDamage
    ensures criticals >= 0 ==> s.criticals == criticals
    ensures streakBest >= 0 ==> s.streakBest == streakBest
    ensures lastTapAt >= 0.0 ==> s.lastTapAt == lastTapAt
    ensures taps < 0 ==> s.taps == 0
    ensures totalDamage < 0.0 ==> s.totalDamage == 0.0
    ensures criticals < 0 ==> s.criticals == 0
    ensures streakBest < 0 ==> s.streakBest == 0
    ensures lastTapAt < 0.0 ==> s.lastTapAt == 0.0
  {
    TapSnapshot(Max(0, taps), MaxR(0.0, totalDamage), Max(0, criticals), Max(0, streakBest), MaxR(0.0, lastTapAt))
  }

  datatype SessionConfig = SessionConfig(
    baseTapPower: real,
    baseCritChance: real,
    baseCritMultiplier: real,
    tapCooldownMs: int,
    streakWindowMs: int,
    maxStreakBonus: real)
  {
    predicate InRange() {
      && baseTapPower >= 0.01
      && 0.0 <= baseCritChance <= 1.0
      && baseCritMultiplier >= 1.0
      && tapCooldownMs >= 0
      && streakWindowMs >= 100
      && maxStreakBonus >= 0.0
    }
  }

  function NewSessionConfig(
    baseTapPower: real,
    baseCritChance: real,
    baseCritMultiplier: real,
    tapCooldownMs: int,
    streakWindowMs: int,
    maxStreakBonus: real): (c: SessionConfig)
    ensures c.InRange()
    ensures SessionConfig(baseTapPower, baseCritChance, baseCritMultiplier, tapCooldownMs, streakWindowMs, maxStreakBonus).InRange() ==>
              c == SessionConfig(baseTapPower, baseCritChance, baseCritMultiplier, tapCooldownMs, streakWindowMs, maxStreakBonus)
    ensures baseTapPower >= 0.01 ==> c.baseTapPower == baseTapPower
    ensures 0.0 <= baseCritChance <= 1.0 ==> c.baseCritChance == baseCritChance
    ensures baseCritMultiplier >= 1.0 ==> c.baseCritMultiplier == baseCritMultiplier
    ensures tapCooldownMs >= 0 ==> c.tapCooldownMs == tapCooldownMs
    ensures streakWindowMs >= 100 ==> c.streakWindowMs == streakWindowMs
    ensures maxStreakBonus >= 0.0 ==> c.maxStreakBonus == maxStreakBonus
    ensures baseTapPower < 0.01 ==> c.baseTapPower == 0.01
    ensures baseCritChance < 0.0 ==> c.baseCritChance == 0.0
    ensures baseCritChance > 1.0 ==> c.baseCritChance == 1.0
    ensures baseCritMultiplier < 1.0 ==> c.baseCritMultiplier == 1.0
    ensures tapCooldownMs < 0 ==> c.tapCooldownMs == 0
    ensures streakWindowMs < 100 ==> c.streakWindowMs == 100
    ensures maxStreakBonus < 0.0 ==> c.maxStreakBonus == 0.0
  {
    SessionConfig(
      MaxR(0.01, baseTapPower),
      MinR(MaxR(0.0, baseCritChance), 1.0),
      MaxR(1.0, baseCritMultiplier),
      Max(0, tapCooldownMs),
      Max(100, streakWindowMs),
      MaxR(0.0, maxStreakBonus))
  }

  /** The default tuning: its literals are already in range, so the clamping
      initialiser keeps every one of them. */
  function VividDefault(): (c: SessionConfig)
    ensures c == SessionConfig(1.0, 0.08, 2.25, 30, 650, 0.65)
  {
    NewSessionConfig(1.0, 0.08, 2.25, 30, 650, 0.65)
  }

  datatype RewardChance = RewardChance(kind: RewardKind, minAmount: int, maxAmount: int, rarity: Rarity, weight: int)
  {
    predicate InRange() { 0 <= minAmount <= maxAmount && weight >= 0 }
  }

  function NewRewardChance(kind: RewardKind, minAmount: int, maxAmount: int, rarity: Rarity, weight: int): (c: RewardChance)
    ensures c.InRange()
    ensures c.kind == kind && c.rarity == rarity
    ensures RewardChance(kind, minAmount, maxAmount, rarity, weight).InRange() ==>
              c == RewardChance(kind, minAmount, maxAmount, rarity, weight)
    ensures minAmount >= 0 ==> c.minAmount == minAmount
    ensures minAmount < 0 ==> c.minAmount == 0
    ensures maxAmount >= c.minAmount ==> c.maxAmount == maxAmount
    ensures maxAmount < c.minAmount ==> c.maxAmount == c.minAmount
    ensures weight >= 0 ==> c.weight == weight
    ensures weight < 0 ==> c.weight == 0
  {
    var lo := Max(0, minAmount);
    RewardChance(kind, lo, Max(lo, maxAmount), rarity, Max(0, weight))
  }

  datatype BoosterChance = BoosterChance(kind: BoosterKind, minSeconds: int, maxSeconds: int, rarity: Rarity, weight: int)
  {
    predicate InRange() { 1 <= minSeconds <= maxSeconds && weight >= 0 }
  }

  function NewBoosterChance(kind: BoosterKind, minSeconds: int, maxSeconds: int, rarity: Rarity, weight: int): (c: BoosterChance)
    ensures c.InRange()
    ensures c.kind == kind && c.rarity == rarity
    ensures BoosterChance(kind, minSeconds, maxSeconds, rarity, weight).InRange() ==>
              c == BoosterChance(kind, minSeconds, maxSeconds, rarity, weight)
    ensures minSeconds >= 1 ==> c.minSeconds == minSeconds
    ensures minSeconds < 1 ==> c.minSeconds == 1
    ensures maxSeconds >= c.minSeconds ==> c.maxSeconds == maxSeconds
    ensures maxSeconds < c.minSeconds ==> c.maxSeconds == c.minSeconds
    ensures weight >= 0 ==> c.weight == weight
    ensures weight < 0 ==> c.weight == 0
  {
    var lo := Max(1, minSeconds);
    BoosterChance(kind, lo, Max(lo, maxSeconds), rarity, Max(0, weight))
  }

  datatype DropTable = DropTable(rewards: seq<RewardChance>, boosters: seq<BoosterChance>)

  datatype SpinBonus = SpinBonus(multiplier: real, seconds: int)

  function NewSpinBonus(multiplier: real, seconds: int): (s: SpinBonus)
    ensures s.multiplier >= 1.0 && s.seconds >= 1
    ensures multiplier >= 1.0 ==> s.multiplier == multiplier
    ensures seconds >= 1 ==> s.seconds == seconds
    ensures multiplier < 1.0 ==> s.multiplier == 1.0
    ensures seconds < 1 ==> s.seconds == 1
  {
    SpinBonus(MaxR(1.0, multiplier), Max(1, seconds))
  }

  datatype LootCrate = LootCrate(name: string, rarity: Rarity, guaranteed: Option<RewardKind>, table: DropTable)

  /** The crate initialiser trims the name of surrounding whitespace. */
  function NewLootCrate(name: string, rarity: Rarity, guaranteed: Option<RewardKind>, table: DropTable): (c: LootCrate)
    ensures c.name == Trim(name) && NoEdgeSpace(c.name)
    ensures c.rarity == rarity && c.guaranteed == guaranteed && c.table == table
  {
    LootCrate(Trim(name), rarity, guaranteed, table)
  }

  /** Re-applying an initialiser to a value it produced changes nothing:
      the initialisers are the single point of validation. */
  lemma ClampingIsIdempotent(c: SessionConfig, rc: RewardChance, bc: BoosterChance, s: TapSnapshot)
    ensures var c' := NewSessionConfig(c.baseTapPower, c.baseCritChance, c.baseCritMultiplier, c.tapCooldownMs, c.streakWindowMs, c.maxStreakBonus);
            NewSessionConfig(c'.baseTapPower, c'.baseCritChance, c'.baseCritMultiplier, c'.tapCooldownMs, c'.streakWindowMs, c'.maxStreakBonus) == c'
    ensures var r' := NewRewardChance(rc.kind, rc.minAmount, rc.maxAmount, rc.rarity, rc.weight);
            NewRewardChance(r'.kind, r'.minAmount, r'.maxAmount, r'.rarity, r'.weight) == r'
    ensures var b' := NewBoosterChance(bc.kind, bc.minSeconds, bc.maxSeconds, bc.rarity, bc.weight);
            NewBoosterChance(b'.kind, b'.minSeconds, b'.maxSeconds, b'.rarity, b'.weight) == b'
    ensures var s' := NewTapSnapshot(s.taps, s.totalDamage, s.criticals, s.streakBest, s.lastTapAt);
            NewTapSnapshot(s'.taps, s'.totalDamage, s'.criticals, s'.streakBest, s'.lastTapAt) == s'
  {
  }
}

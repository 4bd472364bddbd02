/** The per-session board: Idle/Active, pinata health within [0, max], a
    streak counted inside a time window, a tap-power formula with capped
    streak and booster bonuses, two fixed percentage-threshold roll tables,
    and the currency counters that drops credit.

    The whole observable state is the value `Board`; each verb of the
    source is a step function on it (`TapStep`, `DropStep`, ...), and the
    class `BoardState` performs the same verbs in place, each method proved
    to move its fields exactly as the step function says. Wall-clock time
    (`now`), the crit roll and the 1..100 rolls are explicit inputs. */
module PinataBoard {
  import opened Basics
  import opened PinataModels

  /** The branches of the status line: the summary text itself is display only. */
  datatype Status = Idle | Popped | Live | TapIgnored | DropSkipped

  /** What `refreshStatusLine` picks. */
  function StatusFor(isActive: bool, health: real): (s: Status)
    ensures s == Idle <==> !isActive
    ensures s == Popped <==> isActive && health <= 0.0
    ensures s != TapIgnored && s != DropSkipped
  {
    if !isActive then Idle else if health <= 0.0 then Popped else Live
  }

  // ---------------------------------------------------------------------
  // Booster bonuses

  /** Per-kind tap-power bonus of an active booster. */
  function KindPower(k: BoosterKind): real
  {
    match k
    case DoubleTap => 0.12
    case Magnet => 0.04
    case Shield => 0.02
    case Frenzy => 0.18
    case BonusDrop => 0.06
  }

  /** Per-kind crit-chance bonus of an active booster. */
  function KindCrit(k: BoosterKind): real
  {
    match k
    case Frenzy => 0.06
    case DoubleTap => 0.02
    case _ => 0.0
  }

  /** Uncapped sum of the power bonuses, accumulated front to back. */
  function PowerSum(bs: seq<Booster>): (r: real)
    ensures r >= 0.0
  {
    if bs == [] then 0.0 else PowerSum(bs[..|bs| - 1]) + KindPower(bs[|bs| - 1].kind)
  }

  /** Uncapped sum of the crit bonuses, accumulated front to back. */
  function CritSum(bs: seq<Booster>): (r: real)
    ensures r >= 0.0
  {
    if bs == [] then 0.0 else CritSum(bs[..|bs| - 1]) + KindCrit(bs[|bs| - 1].kind)
  }

  function PowerBonus(bs: seq<Booster>): (r: real)
    ensures 0.0 <= r <= 0.65
    ensures PowerSum(bs) <= 0.65 ==> r == PowerSum(bs)
  {
    MinR(0.65, PowerSum(bs))
  }

  function CritBonus(bs: seq<Booster>): (r: real)
    ensures 0.0 <= r <= 0.18
    ensures CritSum(bs) <= 0.18 ==> r == CritSum(bs)
  {
    MinR(0.18, CritSum(bs))
  }

  /** The bonus sums are additive over concatenation, so appending one
      booster raises them by exactly that booster's per-kind amounts. */
  lemma {:induction false} BonusSumsAdditive(a: seq<Booster>, b: seq<Booster>)
    ensures PowerSum(a + b) == PowerSum(a) + PowerSum(b)
    ensures CritSum(a + b) == CritSum(a) + CritSum(b)
    decreases |b|
  {
    if b != [] {
      var b' := b[..|b| - 1];
      assert (a + b)[..|a + b| - 1] == a + b';
      BonusSumsAdditive(a, b');
    } else {
      assert a + b == a;
    }
  }

  // ---------------------------------------------------------------------
  // Tap power and crits

  /** `base * (1 + min(streak * 0.02, maxStreakBonus) + powerBonus)`, times
      the crit multiplier on a crit. */
  function TapPower(config: SessionConfig, streak: int, powerBonus: real, isCritical: bool): real
  {
    var raw := config.baseTapPower * (1.0 + MinR(streak as real * 0.02, config.maxStreakBonus) + powerBonus);
    if isCritical then raw * config.baseCritMultiplier else raw
  }

  /** A non-crit tap deals at least the base power and at most the base power
      with both bonuses at their caps; a crit multiplies that by the crit
      multiplier and so never deals less. */
  lemma TapPowerBounds(config: SessionConfig, streak: int, powerBonus: real)
    requires config.InRange() && streak >= 0 && 0.0 <= powerBonus <= 0.65
    ensures config.baseTapPower <= TapPower(config, streak, powerBonus, false)
            <= config.baseTapPower * (1.0 + config.maxStreakBonus + 0.65)
    ensures TapPower(config, streak, powerBonus, true) == config.baseCritMultiplier * TapPower(config, streak, powerBonus, false)
    ensures TapPower(config, streak, powerBonus, false) <= TapPower(config, streak, powerBonus, true)
  {
    var base := config.baseTapPower;
    var s := MinR(streak as real * 0.02, config.maxStreakBonus);
    var raw := base * (1.0 + s + powerBonus);
    assert 0.0 <= s <= config.maxStreakBonus;
    assert base * 1.0 <= raw by {
      MulMonotone(base, 1.0, 1.0 + s + powerBonus);
    }
    assert raw <= base * (1.0 + config.maxStreakBonus + 0.65) by {
      MulMonotone(base, 1.0 + s + powerBonus, 1.0 + config.maxStreakBonus + 0.65);
    }
    assert raw * 1.0 <= raw * config.baseCritMultiplier by {
      MulMonotone(raw, 1.0, config.baseCritMultiplier);
    }
  }

  lemma MulMonotone(k: real, x: real, y: real)
    requires k >= 0.0 && x <= y
    ensures k * x <= k * y
  {
  }

  /** A longer streak never lowers the power, and once `streak * 0.02`
      reaches `maxStreakBonus` the streak stops mattering. */
  lemma TapPowerStreakMonotone(config: SessionConfig, s1: int, s2: int, powerBonus: real, isCritical: bool)
    requires config.InRange() && 0 <= s1 <= s2 && 0.0 <= powerBonus
    ensures TapPower(config, s1, powerBonus, isCritical) <= TapPower(config, s2, powerBonus, isCritical)
    ensures s1 as real * 0.02 >= config.maxStreakBonus ==>
              TapPower(config, s1, powerBonus, isCritical) == TapPower(config, s2, powerBonus, isCritical)
  {
    var m1 := MinR(s1 as real * 0.02, config.maxStreakBonus);
    var m2 := MinR(s2 as real * 0.02, config.maxStreakBonus);
    assert m1 <= m2;
    var raw1 := config.baseTapPower * (1.0 + m1 + powerBonus);
    var raw2 := config.baseTapPower * (1.0 + m2 + powerBonus);
    MulMonotone(config.baseTapPower, 1.0 + m1 + powerBonus, 1.0 + m2 + powerBonus);
    assert raw1 <= raw2;
    if isCritical {
      assert raw1 >= 0.0;
      MulMonotone(config.baseCritMultiplier, raw1, raw2);
      assert raw1 * config.baseCritMultiplier <= raw2 * config.baseCritMultiplier;
    }
  }

  /** `r < min(max(0, p), 1)`: the crit test with probability clamped to [0, 1]. */
  function CritHit(roll: real, chance: real): bool
  {
    roll < MinR(MaxR(0.0, chance), 1.0)
  }

  /** A roll of 0 crits exactly when the clamped chance is positive, and a
      roll at or above the clamped chance never crits. */
  lemma CritHitClampsChance(roll: real, chance: real)
    requires 0.0 <= roll <= 1.0
    ensures chance <= 0.0 ==> !CritHit(roll, chance)
    ensures CritHit(0.0, chance) <==> chance > 0.0
    ensures roll >= chance ==> !CritHit(roll, chance)
    ensures chance > 1.0 ==> (CritHit(roll, chance) <==> roll < 1.0)
  {
  }

  // ---------------------------------------------------------------------
  // The fixed percentage-threshold tables

  /** `rollReward`: roll in 1..100; `draw` feeds the uniform amount pick. */
  function RollReward(roll: int, draw: nat): (r: Reward)
    requires 1 <= roll <= 100
    ensures roll <= 55 ==> r.kind == Coins && r.rarity == Common && 5 <= r.amount <= 18
    ensures 55 < roll <= 75 ==> r.kind == Candy && r.rarity == Uncommon && 2 <= r.amount <= 8
    ensures 75 < roll <= 90 ==> r.kind == Keys && r.rarity == Rare && 1 <= r.amount <= 3
    ensures 90 < roll <= 97 ==> r.kind == Boosters && r.rarity == Epic && r.amount == 1
    ensures 97 < roll ==> r.kind == Hearts && r.rarity == Legendary && 6 <= r.amount <= 18
  {
    if roll <= 55 then NewReward(Coins, Between(5, 18, draw), Common)
    else if roll <= 75 then NewReward(Candy, Between(2, 8, draw), Uncommon)
    else if roll <= 90 then NewReward(Keys, Between(1, 3, draw), Rare)
    else if roll <= 97 then NewReward(Boosters, 1, Epic)
    else NewReward(Hearts, Between(6, 18, draw), Legendary)
  }

  /** `rollBooster`: roll in 1..100; `draw` feeds the uniform seconds pick. */
  function RollBooster(roll: int, draw: nat): (b: Booster)
    requires 1 <= roll <= 100
    ensures roll <= 45 ==> b.kind == DoubleTap && b.rarity == Uncommon && 8 <= b.seconds <= 16
    ensures 45 < roll <= 70 ==> b.kind == BonusDrop && b.rarity == Rare && 8 <= b.seconds <= 14
    ensures 70 < roll <= 88 ==> b.kind == Magnet && b.rarity == Rare && 10 <= b.seconds <= 18
    ensures 88 < roll <= 97 ==> b.kind == Shield && b.rarity == Epic && 10 <= b.seconds <= 16
    ensures 97 < roll ==> b.kind == Frenzy && b.rarity == Legendary && 6 <= b.seconds <= 12
  {
    if roll <= 45 then NewBooster(DoubleTap, Between(8, 16, draw), Uncommon)
    else if roll <= 70 then NewBooster(BonusDrop, Between(8, 14, draw), Rare)
    else if roll <= 88 then NewBooster(Magnet, Between(10, 18, draw), Rare)
    else if roll <= 97 then NewBooster(Shield, Between(10, 16, draw), Epic)
    else NewBooster(Frenzy, Between(6, 12, draw), Legendary)
  }

  /** Both tables are ordered by rarity: a higher roll never gives a
      rarer-than-before result a lower rarity. */
  lemma RollTablesRarityMonotone(r1: int, r2: int, d1: nat, d2: nat)
    requires 1 <= r1 <= r2 <= 100
    ensures !RollReward(r2, d2).rarity.Below(RollReward(r1, d1).rarity)
    ensures !RollBooster(r2, d2).rarity.Below(RollBooster(r1, d1).rarity)
  {
  }

  // ---------------------------------------------------------------------
  // The board value and its steps

  datatype Board = Board(
    isActive: bool,
    tapsTotal: int,
    streakCount: int,
    streakBest: int,
    pinataHealth: real,
    pinataMaxHealth: real,
    critsTotal: int,
    damageTotal: real,
    coins: int,
    candy: int,
    keys: int,
    activeBoosters: seq<Booster>,
    lastReward: Option<Reward>,
    lastTap: Option<TapEvent>,
    lastTapAt: real,
    streakWindowMs: int,
    status: Status,
    config: SessionConfig)

  /** What every verb preserves. */
  predicate Inv(v: Board)
  {
    && v.config.InRange()
    && v.streakWindowMs == v.config.streakWindowMs
    && 0.0 <= v.pinataHealth <= v.pinataMaxHealth
    && v.pinataMaxHealth >= 10.0
    && 0 <= v.streakCount <= v.streakBest
    && 0 <= v.critsTotal <= v.tapsTotal
    && v.damageTotal >= 0.0
    && v.coins >= 0 && v.candy >= 0 && v.keys >= 0
  }

  /** One tap's inputs: the wall-clock time and the crit roll in [0, 1]. */
  datatype TapInput = TapInput(now: real, critRoll: real)

  /** The state a freshly constructed board is in: default config, full
      health, Idle, and two preview boosters already active. */
  function Initial(): (v: Board)
    ensures Inv(v) && !v.isActive && v.status == Idle
  {
    Board(false, 0, 0, 0, 100.0, 100.0, 0, 0.0, 0, 0, 0,
          [NewBooster(DoubleTap, 12, Uncommon), NewBooster(Frenzy, 8, Rare)],
          None, None, 0.0, VividDefault().streakWindowMs, Idle, VividDefault())
  }

  function StartStep(v: Board): Board
  {
    var mx := MaxR(10.0, v.pinataMaxHealth);
    var h := MinR(v.pinataHealth, mx);
    v.(isActive := true, pinataMaxHealth := mx, pinataHealth := h, streakCount := 0, lastTapAt := 0.0,
       status := StatusFor(true, h))
  }

  function StopStep(v: Board): Board
  {
    v.(isActive := false, streakCount := 0, lastTapAt := 0.0, status := Idle)
  }

  /** `resetAllProgress`: Idle, every counter and currency 0, health and max
      100, no boosters; the session config is kept. */
  function ResetStep(v: Board): Board
  {
    v.(isActive := false, tapsTotal := 0, streakCount := 0, streakBest := 0, critsTotal := 0,
       pinataMaxHealth := 100.0, pinataHealth := 100.0, damageTotal := 0.0,
       coins := 0, candy := 0, keys := 0, activeBoosters := [],
       lastReward := None, lastTap := None, lastTapAt := 0.0,
       streakWindowMs := v.config.streakWindowMs, status := Idle)
  }

  /** A board whose counters, currencies, health and boosters hold their
      reset values, and whose config is `v`'s, is `ResetStep(v)`. */
  lemma IsReset(v: Board, w: Board)
    requires !w.isActive && w.tapsTotal == 0 && w.streakCount == 0 && w.streakBest == 0 && w.critsTotal == 0
    requires w.pinataMaxHealth == 100.0 && w.pinataHealth == 100.0 && w.damageTotal == 0.0
    requires w.coins == 0 && w.candy == 0 && w.keys == 0 && w.activeBoosters == []
    requires w.lastReward == None && w.lastTap == None && w.lastTapAt == 0.0
    requires w.config == v.config && w.streakWindowMs == v.config.streakWindowMs && w.status == Idle
    ensures w == ResetStep(v)
  {
  }

  function DefaultConfigStep(v: Board): Board
  {
    var h := MinR(v.pinataHealth, 100.0);
    v.(config := VividDefault(), streakWindowMs := VividDefault().streakWindowMs, pinataMaxHealth := 100.0,
       pinataHealth := h, status := StatusFor(v.isActive, h))
  }

  function RefillStep(v: Board): Board
  {
    v.(pinataHealth := v.pinataMaxHealth, streakCount := 0, lastTapAt := 0.0,
       status := StatusFor(v.isActive, v.pinataMaxHealth))
  }

  function DrainStep(v: Board): Board
  {
    v.(pinataHealth := 0.0, streakCount := 0, status := StatusFor(v.isActive, 0.0))
  }

  /** `applyDamage`: the damage is floored at 0 and so is the health. */
  function Damaged(health: real, value: real): real
  {
    MaxR(0.0, health - MaxR(0.0, value))
  }

  /** `healPinata`: the heal is floored at 0 and the health capped at max. */
  function Healed(health: real, maxHealth: real, value: real): real
  {
    MinR(maxHealth, health + MaxR(0.0, value))
  }

  /** Whether a tap at `now` continues the streak. */
  function WithinWindow(v: Board, now: real): bool
  {
    (now - v.lastTapAt) * 1000.0 <= v.streakWindowMs as real
  }

  /** The first half of `simulateTap`: the streak moves (continued inside
      the window, restarted at 1 outside it), the best streak follows it up,
      the tap is counted and its time recorded. */
  function StreakStep(v: Board, now: real): Board
  {
    var streak := if WithinWindow(v, now) then v.streakCount + 1 else 1;
    v.(streakCount := streak, streakBest := Max(v.streakBest, streak), tapsTotal := v.tapsTotal + 1, lastTapAt := now)
  }

  /** The second half of `simulateTap`: a crit is counted, the damage
      applied, the tap event recorded and the status refreshed. */
  function HitStep(v: Board, crit: bool, power: real, now: real): Board
  {
    var health := Damaged(v.pinataHealth, power);
    v.(critsTotal := if crit then v.critsTotal + 1 else v.critsTotal,
       damageTotal := v.damageTotal + MaxR(0.0, power),
       pinataHealth := health,
       lastTap := Some(NewTapEvent(now, power, crit)),
       status := StatusFor(v.isActive, health))
  }

  /** `simulateTap`: ignored while Idle; otherwise the crit test and the tap
      power use the streak as it stands after this tap. */
  function TapStep(v: Board, t: TapInput): Board
  {
    if !v.isActive then v.(status := TapIgnored)
    else
      var w := StreakStep(v, t.now);
      var crit := CritHit(t.critRoll, w.config.baseCritChance + CritBonus(w.activeBoosters));
      HitStep(w, crit, TapPower(w.config, w.streakCount, PowerBonus(w.activeBoosters), crit), t.now)
  }

  /** The switch of `simulateDrop` over the reward kind; `booster` is what
      `rollBooster` returns when the kind is boosters. */
  function Credit(v: Board, r: Reward, booster: Booster): Board
  {
    var v2 := CreditKind(v.(lastReward := Some(r)), r, booster);
    v2.(status := StatusFor(v2.isActive, v2.pinataHealth))
  }

  /** The one counter the reward's kind names. */
  function CreditKind(v: Board, r: Reward, booster: Booster): Board
  {
    match r.kind
    case Coins => v.(coins := v.coins + r.amount)
    case Candy => v.(candy := v.candy + r.amount)
    case Keys => v.(keys := v.keys + r.amount)
    case Boosters => v.(activeBoosters := v.activeBoosters + [booster])
    case Hearts => v.(pinataHealth := Healed(v.pinataHealth, v.pinataMaxHealth, r.amount as real))
    case Tickets => v.(coins := v.coins + r.amount)
  }

  /** The inputs of one drop: the reward roll and its amount draw, and the
      booster roll and its seconds draw (used only for a boosters reward). */
  datatype DropInput = DropInput(roll: int, amountDraw: nat, boosterRoll: int, secondsDraw: nat)
  {
    predicate WellFormed() { 1 <= roll <= 100 && 1 <= boosterRoll <= 100 }
  }

  /** `simulateDrop`. */
  function DropStep(v: Board, d: DropInput): Board
    requires d.WellFormed()
  {
    if !v.isActive then v.(status := DropSkipped)
    else Credit(v, RollReward(d.roll, d.amountDraw), RollBooster(d.boosterRoll, d.secondsDraw))
  }

  /** Coins and tickets add to `coins`, candy to `candy`, keys to `keys`;
      a boosters reward appends exactly one booster and hearts heal within
      [0, max]; no other counter moves. */
  lemma CreditTouchesOneCounter(v: Board, r: Reward, b: Booster)
    requires Inv(v) && r.amount >= 0
    ensures var w := Credit(v, r, b);
      && w.coins == v.coins + (if r.kind == Coins || r.kind == Tickets then r.amount else 0)
      && w.candy == v.candy + (if r.kind == Candy then r.amount else 0)
      && w.keys == v.keys + (if r.kind == Keys then r.amount else 0)
      && w.activeBoosters == v.activeBoosters + (if r.kind == Boosters then [b] else [])
      && (r.kind == Hearts ==> v.pinataHealth <= w.pinataHealth <= v.pinataMaxHealth)
      && (r.kind != Hearts ==> w.pinataHealth == v.pinataHealth)
      && w.lastReward == Some(r)
      && w.(coins := v.coins, candy := v.candy, keys := v.keys, activeBoosters := v.activeBoosters,
            pinataHealth := v.pinataHealth, lastReward := v.lastReward, status := v.status) == v
      && Inv(w)
  {
  }

  /** The damage one active tap deals: the power formula at the streak as it
      stands after the tap, critical exactly when the crit test passes. */
  function TapDamage(v: Board, t: TapInput): real
  {
    var crit := CritHit(t.critRoll, v.config.baseCritChance + CritBonus(v.activeBoosters));
    TapPower(v.config, StreakStep(v, t.now).streakCount, PowerBonus(v.activeBoosters), crit)
  }

  /** The damage a run of active taps deals, tap by tap. */
  function TapDamages(v: Board, ts: seq<TapInput>): real
    decreases |ts|
  {
    if ts == [] then 0.0 else TapDamage(v, ts[0]) + TapDamages(TapStep(v, ts[0]), ts[1..])
  }

  /** Each active tap adds exactly one tap, a crit exactly when the crit test
      passes, and its power to the damage total; the streak grows by
      one inside the window and restarts at 1 outside it, and the best streak
      follows it up. */
  lemma TapAccounting(v: Board, t: TapInput)
    requires Inv(v) && v.isActive
    ensures var w := TapStep(v, t);
      var crit := CritHit(t.critRoll, v.config.baseCritChance + CritBonus(v.activeBoosters));
      && w.tapsTotal == v.tapsTotal + 1
      && (w.critsTotal == v.critsTotal + 1 <==> crit)
      && (!crit ==> w.critsTotal == v.critsTotal)
      && w.streakCount == (if (t.now - v.lastTapAt) * 1000.0 <= v.streakWindowMs as real then v.streakCount + 1 else 1)
      && w.streakBest >= v.streakBest && w.streakBest >= w.streakCount
      && w.damageTotal == v.damageTotal + TapPower(v.config, w.streakCount, PowerBonus(v.activeBoosters), crit)
      && w.damageTotal == v.damageTotal + TapDamage(v, t)
      && w.damageTotal >= v.damageTotal
      && w.pinataHealth == MaxR(0.0, v.pinataHealth - (w.damageTotal - v.damageTotal))
      && w.coins == v.coins && w.candy == v.candy && w.keys == v.keys && w.activeBoosters == v.activeBoosters
      && w.lastTapAt == t.now
      && Inv(w)
  {
    var w := StreakStep(v, t.now);
    TapPowerBounds(v.config, w.streakCount, PowerBonus(v.activeBoosters));
  }

  // ---------------------------------------------------------------------
  // Runs of verbs

  datatype Op =
    | Start | Stop | Reset | DefaultConfig | Refill | Drain
    | Tap(t: TapInput)
    | Drop(d: DropInput)
  {
    predicate WellFormed() { Drop? ==> d.WellFormed() }
  }

  function Step(v: Board, op: Op): Board
    requires op.WellFormed()
  {
    match op
    case Start => StartStep(v)
    case Stop => StopStep(v)
    case Reset => ResetStep(v)
    case DefaultConfig => DefaultConfigStep(v)
    case Refill => RefillStep(v)
    case Drain => DrainStep(v)
    case Tap(t) => TapStep(v, t)
    case Drop(d) => DropStep(v, d)
  }

  predicate AllWellFormed(ops: seq<Op>)
  {
    forall i :: 0 <= i < |ops| ==> ops[i].WellFormed()
  }

  function Run(v: Board, ops: seq<Op>): Board
    requires AllWellFormed(ops)
    decreases |ops|
  {
    if ops == [] then v else Run(Step(v, ops[0]), ops[1..])
  }

  lemma StepPreservesInv(v: Board, op: Op)
    requires Inv(v) && op.WellFormed()
    ensures Inv(Step(v, op))
  {
    match op
    case Tap(t) =>
      if v.isActive {
        TapAccounting(v, t);
      }
    case Drop(d) =>
      if v.isActive {
        CreditTouchesOneCounter(v, RollReward(d.roll, d.amountDraw), RollBooster(d.boosterRoll, d.secondsDraw));
      }
    case _ =>
  }

  /** Whatever the sequence of verbs, health stays within [0, max], the
      streak never exceeds the best streak, crits never exceed taps, and no
      counter or currency goes negative. */
  lemma {:induction false} RunPreservesInv(v: Board, ops: seq<Op>)
    requires Inv(v) && AllWellFormed(ops)
    ensures Inv(Run(v, ops))
    ensures 0.0 <= Run(v, ops).pinataHealth <= Run(v, ops).pinataMaxHealth
    decreases |ops|
  {
    if ops != [] {
      StepPreservesInv(v, ops[0]);
      assert AllWellFormed(ops[1..]);
      RunPreservesInv(Step(v, ops[0]), ops[1..]);
    }
  }

  /** The best streak never decreases except on `resetAllProgress`, and the
      totals never decrease either. */
  lemma {:induction false} RunWithoutResetKeepsBests(v: Board, ops: seq<Op>)
    requires Inv(v) && AllWellFormed(ops)
    requires forall i :: 0 <= i < |ops| ==> !ops[i].Reset?
    ensures Run(v, ops).streakBest >= v.streakBest
    ensures Run(v, ops).tapsTotal >= v.tapsTotal
    ensures Run(v, ops).damageTotal >= v.damageTotal
    decreases |ops|
  {
    if ops != [] {
      StepPreservesInv(v, ops[0]);
      if ops[0].Tap? && v.isActive {
        TapAccounting(v, ops[0].t);
      }
      assert AllWellFormed(ops[1..]);
      RunWithoutResetKeepsBests(Step(v, ops[0]), ops[1..]);
    }
  }

  /** While Idle, taps and drops change nothing but the status line. */
  lemma {:induction false} IdleIgnoresPlay(v: Board, ops: seq<Op>)
    requires !v.isActive && AllWellFormed(ops)
    requires forall i :: 0 <= i < |ops| ==> ops[i].Tap? || ops[i].Drop?
    ensures Run(v, ops).(status := v.status) == v
    decreases |ops|
  {
    if ops != [] {
      var w := Step(v, ops[0]);
      assert w.(status := v.status) == v;
      assert AllWellFormed(ops[1..]);
      IdleIgnoresPlay(w, ops[1..]);
    }
  }

  /** N taps on an active board: exactly N taps are counted, the board stays
      active, the damage total grows by the sum of the taps' powers, and the
      health lost is that damage, floored at 0. */
  lemma {:induction false} TapsAccumulate(v: Board, ts: seq<TapInput>)
    requires Inv(v) && v.isActive
    ensures var ops := seq(|ts|, i requires 0 <= i < |ts| => Tap(ts[i]));
      AllWellFormed(ops) &&
      var w := Run(v, ops);
      && w.isActive
      && w.tapsTotal == v.tapsTotal + |ts|
      && w.damageTotal == v.damageTotal + TapDamages(v, ts)
      && w.damageTotal >= v.damageTotal
      && w.pinataHealth == MaxR(0.0, v.pinataHealth - (w.damageTotal - v.damageTotal))
    decreases |ts|
  {
    var ops := seq(|ts|, i requires 0 <= i < |ts| => Tap(ts[i]));
    assert AllWellFormed(ops);
    if ts != [] {
      var v1 := TapStep(v, ts[0]);
      TapAccounting(v, ts[0]);
      TapsAccumulate(v1, ts[1..]);
      var ops1 := seq(|ts[1..]|, i requires 0 <= i < |ts[1..]| => Tap(ts[1..][i]));
      assert ops[1..] == ops1;
      assert Run(v, ops) == Run(v1, ops1);
    }
  }

  // ---------------------------------------------------------------------
  // The board object

  class BoardState {
    var isActive: bool
    var tapsTotal: int
    var streakCount: int
    var streakBest: int
    var pinataHealth: real
    var pinataMaxHealth: real
    var critsTotal: int
    var damageTotal: real
    var coins: int
    var candy: int
    var keys: int
    var activeBoosters: seq<Booster>
    var lastReward: Option<Reward>
    var lastTap: Option<TapEvent>
    var lastTapAt: real
    var streakWindowMs: int
    var status: Status
    var config: SessionConfig

    /** The fields, as one value. */
    function State(): Board
      reads this
    {
      Board(isActive, tapsTotal, streakCount, streakBest, pinataHealth, pinataMaxHealth, critsTotal, damageTotal,
            coins, candy, keys, activeBoosters, lastReward, lastTap, lastTapAt, streakWindowMs, status, config)
    }

    ghost predicate Valid()
      reads this
    {
      Inv(State())
    }

    /** A fresh board is Idle at full health with the default config, and
        already holds two preview boosters (doubleTap and frenzy). */
    constructor()
      ensures Valid() && State() == Initial()
    {
      isActive, tapsTotal, streakCount, streakBest := false, 0, 0, 0;
      critsTotal, damageTotal, coins, candy, keys := 0, 0.0, 0, 0, 0;
      lastReward, lastTap, lastTapAt := None, None, 0.0;
      config := VividDefault();
      streakWindowMs := VividDefault().streakWindowMs;
      pinataMaxHealth := 100.0;
      pinataHealth := 100.0;
      activeBoosters := [NewBooster(DoubleTap, 12, Uncommon), NewBooster(Frenzy, 8, Rare)];
      status := StatusFor(false, 100.0);
    }

    method StartSession()
      requires Valid()
      modifies this
      ensures Valid() && State() == StartStep(old(State()))
    {
      isActive := true;
      pinataMaxHealth := MaxR(10.0, pinataMaxHealth);
      pinataHealth := MinR(pinataHealth, pinataMaxHealth);
      streakCount := 0;
      lastTapAt := 0.0;
      status := StatusFor(isActive, pinataHealth);
    }

    method StopSession()
      requires Valid()
      modifies this
      ensures Valid() && State() == StopStep(old(State()))
    {
      isActive := false;
      streakCount := 0;
      lastTapAt := 0.0;
      status := StatusFor(isActive, pinataHealth);
    }

    method ResetAllProgress()
      requires Valid()
      modifies this
      ensures Valid() && State() == ResetStep(old(State()))
    {
      ghost var v := State();
      ClearPlay();
      ClearHoldings();
      streakWindowMs := config.streakWindowMs;
      status := StatusFor(isActive, pinataHealth);
      IsReset(v, State());
    }

    /** The activity, tap and health half of `resetAllProgress`. */
    method ClearPlay()
      modifies this
      ensures State() == old(State()).(isActive := false, tapsTotal := 0, streakCount := 0, streakBest := 0,
                                       pinataMaxHealth := 100.0, pinataHealth := 100.0, critsTotal := 0, damageTotal := 0.0)
    {
      ClearTaps();
      ClearHealth();
    }

    method ClearTaps()
      modifies this
      ensures State() == old(State()).(isActive := false, tapsTotal := 0, streakCount := 0, streakBest := 0)
    {
      isActive := false;
      tapsTotal := 0;
      streakCount := 0;
      streakBest := 0;
    }

    method ClearHealth()
      modifies this
      ensures State() == old(State()).(pinataMaxHealth := 100.0, pinataHealth := 100.0, critsTotal := 0, damageTotal := 0.0)
    {
      pinataMaxHealth := 100.0;
      pinataHealth := 100.0;
      critsTotal := 0;
      damageTotal := 0.0;
    }

    /** The currency, booster and last-event half of `resetAllProgress`. */
    method ClearHoldings()
      modifies this
      ensures State() == old(State()).(coins := 0, candy := 0, keys := 0, activeBoosters := [],
                                       lastReward := None, lastTap := None, lastTapAt := 0.0)
    {
      ClearCurrencies();
      ClearLastEvents();
    }

    method ClearCurrencies()
      modifies this
      ensures State() == old(State()).(coins := 0, candy := 0, keys := 0, activeBoosters := [])
    {
      coins := 0;
      candy := 0;
      keys := 0;
      activeBoosters := [];
    }

    method ClearLastEvents()
      modifies this
      ensures State() == old(State()).(lastReward := None, lastTap := None, lastTapAt := 0.0)
    {
      lastReward := None;
      lastTap := None;
      lastTapAt := 0.0;
    }

    method ApplyDefaultConfig()
      requires Valid()
      modifies this
      ensures Valid() && State() == DefaultConfigStep(old(State()))
    {
      config := VividDefault();
      streakWindowMs := config.streakWindowMs;
      pinataMaxHealth := 100.0;
      pinataHealth := MinR(pinataHealth, pinataMaxHealth);
      status := StatusFor(isActive, pinataHealth);
    }

    method SimulateTap(now: real, critRoll: real)
      requires Valid() && 0.0 <= critRoll <= 1.0
      modifies this
      ensures Valid() && State() == TapStep(old(State()), TapInput(now, critRoll))
    {
      if !isActive {
        status := TapIgnored;
        return;
      }
      ghost var v := State();
      AdvanceStreak(now);
      ghost var w := State();
      var isCrit := RollCritical(critRoll);
      var power := ComputeTapPower(isCrit);
      Hit(isCrit, power, now);
      TapAccounting(v, TapInput(now, critRoll));
    }

    /** The streak half of `simulateTap`. */
    method AdvanceStreak(now: real)
      modifies this
      ensures State() == StreakStep(old(State()), now)
    {
      var withinWindow := (now - lastTapAt) * 1000.0 <= streakWindowMs as real;
      lastTapAt := now;
      if withinWindow {
        streakCount := streakCount + 1;
      } else {
        streakCount := 1;
      }
      if streakCount > streakBest {
        streakBest := streakCount;
      }
      tapsTotal := tapsTotal + 1;
    }

    /** The damage half of `simulateTap`. */
    method Hit(isCrit: bool, power: real, now: real)
      modifies this
      ensures State() == HitStep(old(State()), isCrit, power, now)
    {
      if isCrit {
        critsTotal := critsTotal + 1;
      }
      ApplyDamage(power);
      lastTap := Some(NewTapEvent(now, power, isCrit));
      status := StatusFor(isActive, pinataHealth);
    }

    method SimulateDrop(roll: int, amountDraw: nat, boosterRoll: int, secondsDraw: nat)
      requires Valid() && 1 <= roll <= 100 && 1 <= boosterRoll <= 100
      modifies this
      ensures Valid() && State() == DropStep(old(State()), DropInput(roll, amountDraw, boosterRoll, secondsDraw))
    {
      if !isActive {
        status := DropSkipped;
        return;
      }
      ghost var v := State();
      var reward := RollReward(roll, amountDraw);
      CreditReward(reward, boosterRoll, secondsDraw);
      CreditTouchesOneCounter(v, reward, RollBooster(boosterRoll, secondsDraw));
    }

    /** The switch of `simulateDrop`: the booster is rolled only for a
        boosters reward. */
    method CreditReward(reward: Reward, boosterRoll: int, secondsDraw: nat)
      requires 1 <= boosterRoll <= 100
      modifies this`lastReward, this`coins, this`candy, this`keys, this`activeBoosters, this`pinataHealth, this`status
      ensures State() == Credit(old(State()), reward, RollBooster(boosterRoll, secondsDraw))
    {
      lastReward := Some(reward);
      CreditCounter(reward, boosterRoll, secondsDraw);
      status := StatusFor(isActive, pinataHealth);
    }

    /** The switch over the reward kind. */
    method CreditCounter(reward: Reward, boosterRoll: int, secondsDraw: nat)
      requires 1 <= boosterRoll <= 100
      modifies this`coins, this`candy, this`keys, this`activeBoosters, this`pinataHealth
      ensures State() == CreditKind(old(State()), reward, RollBooster(boosterRoll, secondsDraw))
    {
      match reward.kind {
        case Coins => coins := coins + reward.amount;
        case Candy => candy := candy + reward.amount;
        case Keys => keys := keys + reward.amount;
        case Boosters =>
          var b := RollBooster(boosterRoll, secondsDraw);
          activeBoosters := activeBoosters + [b];
        case Hearts => HealPinata(reward.amount as real);
        case Tickets => coins := coins + reward.amount;
      }
    }

    method RefillPinata()
      requires Valid()
      modifies this
      ensures Valid() && State() == RefillStep(old(State()))
    {
      pinataHealth := pinataMaxHealth;
      streakCount := 0;
      lastTapAt := 0.0;
      status := StatusFor(isActive, pinataHealth);
    }

    method DrainPinata()
      requires Valid()
      modifies this
      ensures Valid() && State() == DrainStep(old(State()))
    {
      pinataHealth := 0.0;
      streakCount := 0;
      status := StatusFor(isActive, pinataHealth);
    }

    /** The persistence rollup: on a valid board the clamping initialiser
        never fires, so the totals are copied verbatim. */
    method Snapshot() returns (s: TapSnapshot)
      ensures s.InRange()
      ensures Valid() ==> s.taps == tapsTotal && s.totalDamage == damageTotal && s.criticals == critsTotal
                          && s.streakBest == streakBest
      ensures lastTapAt >= 0.0 ==> s.lastTapAt == lastTapAt
    {
      s := NewTapSnapshot(tapsTotal, damageTotal, critsTotal, streakBest, lastTapAt);
    }

    // Internals

    method RollCritical(roll: real) returns (ok: bool)
      ensures ok == CritHit(roll, config.baseCritChance + CritBonus(activeBoosters))
    {
      var bonus := CurrentCritBonus();
      var p := config.baseCritChance + bonus;
      ok := roll < MinR(MaxR(0.0, p), 1.0);
    }

    method ComputeTapPower(isCritical: bool) returns (p: real)
      ensures p == TapPower(config, streakCount, PowerBonus(activeBoosters), isCritical)
    {
      var base := config.baseTapPower;
      var streakBonus := MinR(streakCount as real * 0.02, config.maxStreakBonus);
      var boosterBonus := CurrentPowerBonus();
      var raw := base * (1.0 + streakBonus + boosterBonus);
      if isCritical {
        p := raw * config.baseCritMultiplier;
      } else {
        p := raw;
      }
    }

    method ApplyDamage(value: real)
      modifies this`damageTotal, this`pinataHealth, this`status
      ensures damageTotal == old(damageTotal) + MaxR(0.0, value)
      ensures pinataHealth == Damaged(old(pinataHealth), value)
      ensures status == if pinataHealth <= 0.0 then Popped else old(status)
    {
      var dmg := MaxR(0.0, value);
      damageTotal := damageTotal + dmg;
      pinataHealth := MaxR(0.0, pinataHealth - dmg);
      if pinataHealth <= 0.0 {
        status := Popped;
      }
    }

    method HealPinata(value: real)
      modifies this`pinataHealth
      ensures pinataHealth == Healed(old(pinataHealth), old(pinataMaxHealth), value)
    {
      var heal := MaxR(0.0, value);
      pinataHealth := MinR(pinataMaxHealth, pinataHealth + heal);
    }

    /** Sums the per-kind power bonus over the active boosters, then caps it. */
    method CurrentPowerBonus() returns (bonus: real)
      ensures bonus == PowerBonus(activeBoosters)
    {
      var sum := 0.0;
      for i := 0 to |activeBoosters|
        invariant sum == PowerSum(activeBoosters[..i])
      {
        assert activeBoosters[..i + 1][..i] == activeBoosters[..i];
        sum := sum + KindPower(activeBoosters[i].kind);
      }
      assert activeBoosters[..|activeBoosters|] == activeBoosters;
      bonus := MinR(0.65, sum);
    }

    /** Sums the per-kind crit bonus over the active boosters, then caps it. */
    method CurrentCritBonus() returns (bonus: real)
      ensures bonus == CritBonus(activeBoosters)
    {
      var sum := 0.0;
      for i := 0 to |activeBoosters|
        invariant sum == CritSum(activeBoosters[..i])
      {
        assert activeBoosters[..i + 1][..i] == activeBoosters[..i];
        sum := sum + KindCrit(activeBoosters[i].kind);
      }
      assert activeBoosters[..|activeBoosters|] == activeBoosters;
      bonus := MinR(0.18, sum);
    }
  }

  /** After `resetAllProgress` and `startSession`, a first non-crit tap with
      the default config deals `1.0 * (1 + min(0.02, 0.65) + 0) = 1.02`,
      leaving 98.98 health. */
  method FirstTapAfterReset() returns (damage: real, health: real)
    ensures damage == 1.02 && health == 98.98
  {
    var board := new BoardState();
    board.ResetAllProgress();
    board.StartSession();
    board.SimulateTap(1000.0, 1.0);
    damage, health := board.damageTotal, board.pinataHealth;
  }

  /** Without the reset, the two preview boosters of a fresh board add
      0.12 + 0.18 to the power bonus: the first tap deals 1.32. */
  method FirstTapOnFreshBoard() returns (damage: real, health: real)
    ensures damage == 1.32 && health == 98.68
  {
    var board := new BoardState();
    ghost var preview := board.activeBoosters;
    assert preview[..1] == [preview[0]] && preview[..1][..0] == [];
    assert PowerSum(preview) == 0.30 && CritSum(preview) == 0.08;
    board.StartSession();
    board.SimulateTap(1000.0, 1.0);
    damage, health := board.damageTotal, board.pinataHealth;
  }
}

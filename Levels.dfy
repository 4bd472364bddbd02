/** Level tuning: an immutable, clamped configuration record, its five preset
    tiers, and the deck, a cursor over a list of levels. */
module PinataLevels {
  import opened Basics

  datatype LevelConfig = LevelConfig(
    levelId: int,
    title: string,
    pinataHealth: real,
    baseTapPower: real,
    critChance: real,
    critMultiplier: real,
    streakWindowMs: int,
    maxStreakBonus: real,
    bonusDrops: int,
    boosterSlots: int,
    targetCoins: int,
    targetCandy: int,
    targetKeys: int)
  {
    predicate InRange() {
      && levelId >= 1
      && pinataHealth >= 5.0
      && baseTapPower >= 0.05
      && 0.0 <= critChance <= 1.0
      && critMultiplier >= 1.0
      && streakWindowMs >= 150
      && maxStreakBonus >= 0.0
      && bonusDrops >= 0
      && boosterSlots >= 0
      && targetCoins >= 0
      && targetCandy >= 0
      && targetKeys >= 0
    }
  }

  /** The initialiser: the title is trimmed of surrounding whitespace, and
      every field lands in range; a field already in range
      is kept, one below its floor (or above the crit-chance ceiling) is
      replaced by that bound. */
  function NewLevelConfig(
    levelId: int,
    title: string,
    pinataHealth: real,
    baseTapPower: real,
    critChance: real,
    critMultiplier: real,
    streakWindowMs: int,
    maxStreakBonus: real,
    bonusDrops: int,
    boosterSlots: int,
    targetCoins: int,
    targetCandy: int,
    targetKeys: int): (c: LevelConfig)
    ensures c.InRange()
    ensures c.title == Trim(title)
    ensures NoEdgeSpace(title) ==> c.title == title
    ensures levelId >= 1 ==> c.levelId == levelId
    ensures levelId < 1 ==> c.levelId == 1
    ensures pinataHealth >= 5.0 ==> c.pinataHealth == pinataHealth
    ensures baseTapPower >= 0.05 ==> c.baseTapPower == baseTapPower
    ensures 0.0 <= critChance <= 1.0 ==> c.critChance == critChance
    ensures critMultiplier >= 1.0 ==> c.critMultiplier == critMultiplier
    ensures streakWindowMs >= 150 ==> c.streakWindowMs == streakWindowMs
    ensures maxStreakBonus >= 0.0 ==> c.maxStreakBonus == maxStreakBonus
    ensures bonusDrops >= 0 ==> c.bonusDrops == bonusDrops
    ensures boosterSlots >= 0 ==> c.boosterSlots == boosterSlots
    ensures targetCoins >= 0 ==> c.targetCoins == targetCoins
    ensures targetCandy >= 0 ==> c.targetCandy == targetCandy
    ensures targetKeys >= 0 ==> c.targetKeys == targetKeys
    ensures pinataHealth < 5.0 ==> c.pinataHealth == 5.0
    ensures baseTapPower < 0.05 ==> c.baseTapPower == 0.05
    ensures critChance < 0.0 ==> c.critChance == 0.0
    ensures critChance > 1.0 ==> c.critChance == 1.0
    ensures critMultiplier < 1.0 ==> c.critMultiplier == 1.0
    ensures streakWindowMs < 150 ==> c.streakWindowMs == 150
    ensures maxStreakBonus < 0.0 ==> c.maxStreakBonus == 0.0
    ensures bonusDrops < 0 ==> c.bonusDrops == 0
    ensures boosterSlots < 0 ==> c.boosterSlots == 0
    ensures targetCoins < 0 ==> c.targetCoins == 0
    ensures targetCandy < 0 ==> c.targetCandy == 0
    ensures targetKeys < 0 ==> c.targetKeys == 0
  {
    LevelConfig(
      Max(1, levelId),
      Trim(title),
      MaxR(5.0, pinataHealth),
      MaxR(0.05, baseTapPower),
      MinR(MaxR(0.0, critChance), 1.0),
      MaxR(1.0, critMultiplier),
      Max(150, streakWindowMs),
      MaxR(0.0, maxStreakBonus),
      Max(0, bonusDrops),
      Max(0, boosterSlots),
      Max(0, targetCoins),
      Max(0, targetCandy),
      Max(0, targetKeys))
  }

  /** The two corrections quoted for the initialiser: a level id of -3 is
      stored as 1 and a crit chance of 5.0 as 1.0. */
  lemma OutOfRangeInputsAreCorrected()
    ensures var c := NewLevelConfig(-3, "Odd", 1.0, 0.0, 5.0, 0.5, 10, -1.0, -2, -2, -5, -5, -5);
            c.levelId == 1 && c.critChance == 1.0 && c.pinataHealth == 5.0 && c.baseTapPower == 0.05
            && c.critMultiplier == 1.0 && c.streakWindowMs == 150 && c.maxStreakBonus == 0.0
            && c.bonusDrops == 0 && c.boosterSlots == 0 && c.targetCoins == 0 && c.targetCandy == 0 && c.targetKeys == 0
  {
  }

  // The five preset tiers. Their literals are all in range, so only the
  // level id can be corrected by the initialiser.

  function WarmUp(id: int): (c: LevelConfig)
    ensures c.InRange() && c.title == "Warm Up" && c.levelId == Max(1, id)
    ensures c == LevelConfig(Max(1, id), "Warm Up", 70.0, 1.0, 0.08, 2.2, 720, 0.55, 1, 1, 80, 18, 1)
  {
    NewLevelConfig(id, "Warm Up", 70.0, 1.0, 0.08, 2.2, 720, 0.55, 1, 1, 80, 18, 1)
  }

  function Brisk(id: int): (c: LevelConfig)
    ensures c.InRange() && c.title == "Brisk" && c.levelId == Max(1, id)
    ensures c == LevelConfig(Max(1, id), "Brisk", 110.0, 0.95, 0.09, 2.25, 660, 0.60, 2, 2, 140, 28, 2)
  {
    NewLevelConfig(id, "Brisk", 110.0, 0.95, 0.09, 2.25, 660, 0.60, 2, 2, 140, 28, 2)
  }

  function Fierce(id: int): (c: LevelConfig)
    ensures c.InRange() && c.title == "Fierce" && c.levelId == Max(1, id)
    ensures c == LevelConfig(Max(1, id), "Fierce", 165.0, 0.88, 0.10, 2.35, 610, 0.68, 3, 2, 220, 42, 3)
  {
    NewLevelConfig(id, "Fierce", 165.0, 0.88, 0.10, 2.35, 610, 0.68, 3, 2, 220, 42, 3)
  }

  function NightRun(id: int): (c: LevelConfig)
    ensures c.InRange() && c.title == "Night Run" && c.levelId == Max(1, id)
    ensures c == LevelConfig(Max(1, id), "Night Run", 215.0, 0.82, 0.11, 2.45, 560, 0.74, 4, 3, 290, 60, 4)
  {
    NewLevelConfig(id, "Night Run", 215.0, 0.82, 0.11, 2.45, 560, 0.74, 4, 3, 290, 60, 4)
  }

  function Crimson(id: int): (c: LevelConfig)
    ensures c.InRange() && c.title == "Crimson" && c.levelId == Max(1, id)
    ensures c == LevelConfig(Max(1, id), "Crimson", 275.0, 0.78, 0.12, 2.6, 520, 0.80, 5, 3, 380, 78, 5)
  {
    NewLevelConfig(id, "Crimson", 275.0, 0.78, 0.12, 2.6, 520, 0.80, 5, 3, 380, 78, 5)
  }

  function SampleSet(): (s: seq<LevelConfig>)
    ensures |s| == 5
    ensures forall k :: 0 <= k < |s| ==> s[k].levelId == k + 1 && s[k].InRange()
  {
    [WarmUp(1), Brisk(2), Fierce(3), NightRun(4), Crimson(5)]
  }

  /** The sample set is what a rebuild of five levels makes: Warm Up,
      Brisk, Fierce, Night Run and Crimson with ids 1 to 5. */
  lemma SampleSetIsFirstFiveTiers()
    ensures forall k :: 0 <= k < 5 ==> SampleSet()[k] == TierLevel(k + 1)
    ensures SampleSet()[0].title == "Warm Up" && SampleSet()[1].title == "Brisk" && SampleSet()[2].title == "Fierce"
            && SampleSet()[3].title == "Night Run" && SampleSet()[4].title == "Crimson"
  {
  }

  /** The tier title `rebuild` picks for level `i`, by `i % 5`. */
  function TierTitle(i: int): string
  {
    var mode := i % 5;
    if mode == 0 then "Crimson"
    else if mode == 1 then "Warm Up"
    else if mode == 2 then "Brisk"
    else if mode == 3 then "Fierce"
    else "Night Run"
  }

  /** Level `i` of a rebuilt deck: its id is `i`, its tier is chosen by `i % 5`. */
  function TierLevel(i: int): (c: LevelConfig)
    requires i >= 1
    ensures c.levelId == i && c.InRange()
    ensures c.title == TierTitle(i)
  {
    var mode := i % 5;
    if mode == 0 then Crimson(i)
    else if mode == 1 then WarmUp(i)
    else if mode == 2 then Brisk(i)
    else if mode == 3 then Fierce(i)
    else NightRun(i)
  }

  /** The cursor position after one `advance` on a deck of `n` levels. */
  function Advanced(i: int, n: nat): int
  {
    if n == 0 then 0 else Min(i + 1, n - 1)
  }

  /** The cursor position after one `rewind` on a deck of `n` levels. */
  function Rewound(i: int, n: nat): int
  {
    if n == 0 then 0 else Max(i - 1, 0)
  }

  /** `k` successive advances. */
  function AdvancedTimes(i: int, n: nat, k: nat): int
  {
    if k == 0 then i else Advanced(AdvancedTimes(i, n, k - 1), n)
  }

  /** Advancing never wraps: `k` advances from a valid position stop at the
      last level. */
  lemma {:induction false} AdvanceSaturates(i: int, n: nat, k: nat)
    requires 0 <= i < n
    ensures AdvancedTimes(i, n, k) == Min(i + k, n - 1)
  {
    if k > 0 {
      AdvanceSaturates(i, n, k - 1);
    }
  }

  /** Rewinding never wraps either, and the two moves undo each other away
      from the ends of the deck. */
  lemma RewindInvertsAdvance(i: int, n: nat)
    requires 0 <= i < n
    ensures 0 <= Rewound(i, n) <= i
    ensures i < n - 1 ==> Rewound(Advanced(i, n), n) == i
    ensures i > 0 ==> Advanced(Rewound(i, n), n) == i
  {
  }

  class LevelDeck {
    var levels: seq<LevelConfig>
    var currentIndex: int

    /** The cursor stays inside the deck; an empty deck keeps it at 0. */
    ghost predicate Valid()
      reads this
    {
      0 <= currentIndex && (levels != [] ==> currentIndex < |levels|) && (levels == [] ==> currentIndex == 0)
    }

    constructor()
      ensures Valid() && levels == SampleSet() && currentIndex == 0
    {
      levels := SampleSet();
      currentIndex := 0;
    }

    /** The level under the cursor; never out of bounds, and a hard-coded
        warm-up level when the deck is empty. */
    method Current() returns (c: LevelConfig)
      ensures levels == [] ==> c == WarmUp(1)
      ensures levels != [] ==> c == levels[Clamp(currentIndex, 0, |levels| - 1)] && c in levels
      ensures levels != [] && Valid() ==> c == levels[currentIndex]
    {
      if levels == [] {
        return WarmUp(1);
      }
      var idx := Min(Max(0, currentIndex), |levels| - 1);
      c := levels[idx];
    }

    method SetIndex(value: int)
      modifies this
      ensures Valid() && levels == old(levels)
      ensures levels == [] ==> currentIndex == 0
      ensures levels != [] ==> currentIndex == Clamp(value, 0, |levels| - 1)
    {
      if levels == [] {
        currentIndex := 0;
        return;
      }
      currentIndex := Min(Max(0, value), |levels| - 1);
    }

    method Advance()
      requires Valid()
      modifies this
      ensures Valid() && levels == old(levels)
      ensures currentIndex == Advanced(old(currentIndex), |levels|)
    {
      if levels == [] {
        currentIndex := 0;
        return;
      }
      currentIndex := Min(currentIndex + 1, |levels| - 1);
    }

    method Rewind()
      requires Valid()
      modifies this
      ensures Valid() && levels == old(levels)
      ensures currentIndex == Rewound(old(currentIndex), |levels|)
    {
      if levels == [] {
        currentIndex := 0;
        return;
      }
      currentIndex := Max(currentIndex - 1, 0);
    }

    /** Regenerates `max(1, count)` levels cycling through the five tiers and
        puts the cursor back on the first one. */
    method Rebuild(count: int)
      modifies this
      ensures Valid() && currentIndex == 0
      ensures |levels| == Max(1, count)
      ensures forall k :: 0 <= k < |levels| ==> levels[k] == TierLevel(k + 1)
    {
      var c := Max(1, count);
      var list: seq<LevelConfig> := [];
      for i := 1 to c + 1
        invariant |list| == i - 1
        invariant forall k :: 0 <= k < |list| ==> list[k] == TierLevel(k + 1)
      {
        list := list + [TierLevel(i)];
      }
      levels := list;
      currentIndex := 0;
    }
  }

  /** Rebuilding seven levels then advancing ten times: the tiers follow
      `i % 5` for i = 1..7, and the cursor stops at the last level. */
  method RebuildSevenThenAdvanceTen() returns (titles: seq<string>, index: int)
    ensures titles == ["Warm Up", "Brisk", "Fierce", "Night Run", "Crimson", "Warm Up", "Brisk"]
    ensures index == 6
  {
    var deck := new LevelDeck();
    deck.Rebuild(7);
    var ls := deck.levels;
    titles := [ls[0].title, ls[1].title, ls[2].title, ls[3].title, ls[4].title, ls[5].title, ls[6].title];
    for n := 0 to 10
      invariant deck.Valid() && |deck.levels| == 7
      invariant deck.currentIndex == AdvancedTimes(0, 7, n)
    {
      deck.Advance();
    }
    AdvanceSaturates(0, 7, 10);
    index := deck.currentIndex;
  }
}

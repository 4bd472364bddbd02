/** The reward system: a "bag" of reward indices filled in proportion to the
    drop table's weights and drawn without replacement until empty, a
    weighted booster pick, a four-band spin bonus, crate guarantees by
    rarity, and running currency totals.

    The uniform random draws of the source (`Int.random(in:)` and
    `shuffle()`) are nondeterministic choices here, constrained to exactly
    the values the source can produce: a draw is any value of its range, a
    shuffle any permutation. The spin roll is an explicit argument. */
module PinataRewards {
  import opened Basics
  import opened PinataModels

  // ---------------------------------------------------------------------
  // Weighted index lists

  /** `n` copies of `x`, appended one at a time. */
  function Repeat(x: int, n: nat): (s: seq<int>)
    ensures |s| == n
    ensures forall k :: 0 <= k < n ==> s[k] == x
  {
    if n == 0 then [] else Repeat(x, n - 1) + [x]
  }

  /** The list both weighted loops of the source build: for each index `i`
      in order, `max(0, ws[i])` copies of `i`. */
  function Copies(ws: seq<int>): seq<int>
  {
    if ws == [] then [] else Copies(ws[..|ws| - 1]) + Repeat(|ws| - 1, Max(0, ws[|ws| - 1]))
  }

  /** The sum of the weights, each floored at 0. */
  function WeightSum(ws: seq<int>): (n: nat)
  {
    if ws == [] then 0 else WeightSum(ws[..|ws| - 1]) + Max(0, ws[|ws| - 1])
  }

  lemma {:induction false} RepeatCount(x: int, n: nat, y: int)
    ensures multiset(Repeat(x, n))[y] == if y == x then n else 0
  {
    if n > 0 {
      RepeatCount(x, n - 1, y);
    }
  }

  /** Index `x` occurs in the weighted list exactly `max(0, ws[x])` times,
      no other value occurs at all, and the list is as long as the weights'
      sum. */
  lemma {:induction false} CopiesCount(ws: seq<int>, x: int)
    ensures multiset(Copies(ws))[x] == if 0 <= x < |ws| then Max(0, ws[x]) else 0
    ensures |Copies(ws)| == WeightSum(ws)
  {
    if ws != [] {
      var init := ws[..|ws| - 1];
      CopiesCount(init, x);
      RepeatCount(|ws| - 1, Max(0, ws[|ws| - 1]), x);
      if 0 <= x < |init| {
        assert init[x] == ws[x];
      }
    }
  }

  /** Every entry of the weighted list is an index of `ws` with positive weight. */
  lemma CopiesAreIndices(ws: seq<int>, x: int)
    requires x in Copies(ws)
    ensures 0 <= x < |ws| && ws[x] > 0
  {
    CopiesCount(ws, x);
    assert multiset(Copies(ws))[x] > 0;
  }

  /** The weighted list is empty exactly when no weight is positive. */
  lemma CopiesEmpty(ws: seq<int>)
    ensures Copies(ws) == [] <==> forall i :: 0 <= i < |ws| ==> ws[i] <= 0
  {
    if Copies(ws) == [] {
      forall i | 0 <= i < |ws|
        ensures ws[i] <= 0
      {
        CopiesCount(ws, i);
      }
    } else {
      CopiesAreIndices(ws, Copies(ws)[0]);
    }
  }

  /** The nested `for` loops of `refillBag` and `rollSingleBooster`: zero
      weights are skipped, every other index is appended `weight` times. */
  method BuildWeighted(ws: seq<int>) returns (out: seq<int>)
    ensures out == Copies(ws)
  {
    out := [];
    for i := 0 to |ws|
      invariant out == Copies(ws[..i])
    {
      assert ws[..i + 1][..i] == ws[..i];
      var w := Max(0, ws[i]);
      if w == 0 {
        continue;
      }
      for k := 0 to w
        invariant out == Copies(ws[..i]) + Repeat(i, k)
      {
        out := out + [i];
      }
    }
    assert ws[..|ws|] == ws;
  }

  function RewardWeights(rs: seq<RewardChance>): (ws: seq<int>)
    ensures |ws| == |rs| && forall i :: 0 <= i < |rs| ==> ws[i] == rs[i].weight
  {
    seq(|rs|, i requires 0 <= i < |rs| => rs[i].weight)
  }

  function BoosterWeights(bs: seq<BoosterChance>): (ws: seq<int>)
    ensures |ws| == |bs| && forall i :: 0 <= i < |bs| ==> ws[i] == bs[i].weight
  {
    seq(|bs|, i requires 0 <= i < |bs| => bs[i].weight)
  }

  /** What `refillBag` fills the bag with, before shuffling: the weighted
      reward indices, or ten zeros when no weight is positive. */
  function BagFor(rs: seq<RewardChance>): seq<int>
  {
    var c := Copies(RewardWeights(rs));
    if c == [] then seq(10, _ => 0) else c
  }

  /** The bag is fair: when some weight is positive, index `j` is in it
      exactly `weight` times, so a zero-weight reward is never drawn, and
      the bag holds as many entries as the weights' sum. When no weight is
      positive it is ten copies of index 0. */
  lemma BagIsFair(rs: seq<RewardChance>, j: int)
    requires forall i :: 0 <= i < |rs| ==> rs[i].InRange()
    ensures (exists i :: 0 <= i < |rs| && rs[i].weight > 0) ==>
              && multiset(BagFor(rs))[j] == (if 0 <= j < |rs| then rs[j].weight else 0)
              && |BagFor(rs)| == WeightSum(RewardWeights(rs))
    ensures (forall i :: 0 <= i < |rs| ==> rs[i].weight == 0) ==> BagFor(rs) == seq(10, _ => 0)
  {
    var ws := RewardWeights(rs);
    CopiesEmpty(ws);
    CopiesCount(ws, j);
    if 0 <= j < |rs| {
      assert Max(0, ws[j]) == rs[j].weight;
    }
  }

  /** Every bag entry indexes the table, when the table has rewards. */
  lemma BagIndices(rs: seq<RewardChance>, x: int)
    requires x in BagFor(rs)
    ensures 0 <= x < Max(1, |rs|)
  {
    var ws := RewardWeights(rs);
    if Copies(ws) != [] {
      CopiesAreIndices(ws, x);
    }
  }

  /** The list `rollSingleBooster` picks from: the weighted booster indices,
      or every index once when no weight is positive. */
  function BoosterPool(bs: seq<BoosterChance>): seq<int>
  {
    var c := Copies(BoosterWeights(bs));
    if c == [] then seq(|bs|, i => i) else c
  }

  /** Every pool entry indexes the list; when some weight is positive, a
      zero-weight booster is never in the pool and index `j` occurs exactly
      `weight` times. */
  lemma BoosterPoolIsFair(bs: seq<BoosterChance>, j: int)
    requires forall i :: 0 <= i < |bs| ==> bs[i].InRange()
    ensures forall x :: x in BoosterPool(bs) ==> 0 <= x < |bs|
    ensures (exists i :: 0 <= i < |bs| && bs[i].weight > 0) ==>
              && multiset(BoosterPool(bs))[j] == (if 0 <= j < |bs| then bs[j].weight else 0)
              && forall x :: x in BoosterPool(bs) ==> bs[x].weight > 0
    ensures bs != [] ==> BoosterPool(bs) != []
  {
    var ws := BoosterWeights(bs);
    CopiesEmpty(ws);
    CopiesCount(ws, j);
    if 0 <= j < |bs| {
      assert Max(0, ws[j]) == bs[j].weight;
    }
    forall x | x in BoosterPool(bs)
      ensures 0 <= x < |bs|
      ensures Copies(ws) != [] ==> bs[x].weight > 0
    {
      if Copies(ws) != [] {
        CopiesAreIndices(ws, x);
      }
    }
    if bs != [] && Copies(ws) == [] {
      assert BoosterPool(bs)[0] == 0;
    }
  }

  // ---------------------------------------------------------------------
  // Single results

  /** `r` is a reward the table entry `info` can produce. */
  predicate FromReward(r: Reward, info: RewardChance)
  {
    r.kind == info.kind && r.rarity == info.rarity && info.minAmount <= r.amount <= info.maxAmount
  }

  /** `r` is what `rollSingleReward` can return for a table with the
      rewards `rs`: a reward of some entry. */
  predicate OffersReward(rs: seq<RewardChance>, r: Reward)
  {
    exists j :: 0 <= j < |rs| && FromReward(r, rs[j])
  }

  /** `b` is a booster the table entry `info` can produce. */
  predicate FromBooster(b: Booster, info: BoosterChance)
  {
    b.kind == info.kind && b.rarity == info.rarity && info.minSeconds <= b.seconds <= info.maxSeconds
  }

  predicate NoWeight(bs: seq<BoosterChance>)
  {
    forall i :: 0 <= i < |bs| ==> bs[i].weight <= 0
  }

  /** `b` is what `rollSingleBooster` can return for the list `bs`: the
      fallback for an empty list, otherwise a booster of some entry whose
      weight is positive, or of any entry when no weight is. */
  predicate OffersBooster(bs: seq<BoosterChance>, b: Booster)
  {
    if bs == [] then b == FallbackBooster()
    else exists j :: 0 <= j < |bs| && FromBooster(b, bs[j]) && (bs[j].weight > 0 || NoWeight(bs))
  }

  /** What `rollSingleBooster` returns for an empty booster list. */
  function FallbackBooster(): (b: Booster)
    ensures b == Booster(BonusDrop, 10, Uncommon)
  {
    NewBooster(BonusDrop, 10, Uncommon)
  }

  /** The amount of a reward of `info`: the minimum when the range is a
      single value, otherwise a uniform draw from the range. */
  method RewardOf(info: RewardChance) returns (r: Reward)
    requires info.InRange()
    ensures FromReward(r, info)
  {
    var amount: int;
    if info.minAmount == info.maxAmount {
      amount := info.minAmount;
    } else {
      amount :| info.minAmount <= amount <= info.maxAmount;
    }
    r := NewReward(info.kind, amount, info.rarity);
  }

  /** The seconds of a booster of `info`, drawn like a reward's amount. */
  method BoosterOf(info: BoosterChance) returns (b: Booster)
    requires info.InRange()
    ensures FromBooster(b, info)
  {
    var seconds: int;
    if info.minSeconds == info.maxSeconds {
      seconds := info.minSeconds;
    } else {
      seconds :| info.minSeconds <= seconds <= info.maxSeconds;
    }
    b := NewBooster(info.kind, seconds, info.rarity);
  }

  /** The index pick of `rollSingleBooster`: a uniform pick from the
      weighted pool (every index once if no weight is positive), clamped
      into the list. A zero-weight entry is picked only when every weight is
      zero. */
  method PickWeighted(list: seq<BoosterChance>) returns (j: int)
    requires list != [] && forall i :: 0 <= i < |list| ==> list[i].InRange()
    ensures 0 <= j < |list| && (list[j].weight > 0 || NoWeight(list))
  {
    var weighted := BuildWeighted(BoosterWeights(list));
    if weighted == [] {
      weighted := seq(|list|, i => i);
    }
    BoosterPoolIsFair(list, 0);
    CopiesEmpty(BoosterWeights(list));
    assert weighted == BoosterPool(list);
    var u :| 0 <= u < |weighted|;
    var pick := weighted[u];
    assert pick in BoosterPool(list);
    j := Min(Max(0, pick), |list| - 1);
  }

  // ---------------------------------------------------------------------
  // Totals

  /** The three running totals. */
  datatype Totals = Totals(coins: int, candy: int, keys: int)

  /** `applyRewardToTotals`: coins and tickets add to coins, candy to candy,
      keys to keys; boosters and hearts leave the totals alone. */
  function Credited(t: Totals, r: Reward): (u: Totals)
    ensures u.coins == t.coins + (if r.kind == Coins || r.kind == Tickets then r.amount else 0)
    ensures u.candy == t.candy + (if r.kind == Candy then r.amount else 0)
    ensures u.keys == t.keys + (if r.kind == Keys then r.amount else 0)
  {
    match r.kind
    case Coins => t.(coins := t.coins + r.amount)
    case Candy => t.(candy := t.candy + r.amount)
    case Keys => t.(keys := t.keys + r.amount)
    case Boosters => t
    case Hearts => t
    case Tickets => t.(coins := t.coins + r.amount)
  }

  /** Crediting a list of rewards front to back. */
  function CreditedAll(t: Totals, rs: seq<Reward>): Totals
  {
    if rs == [] then t else Credited(CreditedAll(t, rs[..|rs| - 1]), rs[|rs| - 1])
  }

  /** The amounts in `rs` that count toward coins. */
  function CoinAmounts(rs: seq<Reward>): int
  {
    if rs == [] then 0
    else CoinAmounts(rs[..|rs| - 1]) + (if rs[|rs| - 1].kind in {Coins, Tickets} then rs[|rs| - 1].amount else 0)
  }

  /** A bundle raises the coin total by exactly its coin and ticket amounts,
      and with non-negative amounts no total ever goes down. */
  lemma {:induction false} CreditedAllSums(t: Totals, rs: seq<Reward>)
    ensures CreditedAll(t, rs).coins == t.coins + CoinAmounts(rs)
    ensures (forall k :: 0 <= k < |rs| ==> rs[k].amount >= 0) ==>
              var u := CreditedAll(t, rs);
              u.coins >= t.coins && u.candy >= t.candy && u.keys >= t.keys
  {
    if rs != [] {
      var init := rs[..|rs| - 1];
      CreditedAllSums(t, init);
      assert forall k :: 0 <= k < |init| ==> init[k] == rs[k];
    }
  }

  /** Crediting one more reward. */
  lemma CreditedAllSnoc(t: Totals, rs: seq<Reward>, r: Reward)
    ensures CreditedAll(t, rs + [r]) == Credited(CreditedAll(t, rs), r)
  {
    assert (rs + [r])[..|rs|] == rs;
  }

  /** Crediting two lists in turn is crediting their concatenation. */
  lemma {:induction false} CreditedAllAppend(t: Totals, a: seq<Reward>, b: seq<Reward>)
    ensures CreditedAll(CreditedAll(t, a), b) == CreditedAll(t, a + b)
    decreases |b|
  {
    if b == [] {
      assert a + b == a;
    } else {
      var b' := b[..|b| - 1];
      assert (a + b)[..|a + b| - 1] == a + b';
      CreditedAllAppend(t, a, b');
    }
  }

  // ---------------------------------------------------------------------
  // Spin and crates

  /** `rollSpinBonus` for a roll in 1..100. */
  function SpinFor(roll: int): (s: SpinBonus)
    requires 1 <= roll <= 100
    ensures roll <= 55 ==> s == SpinBonus(1.25, 10)
    ensures 55 < roll <= 80 ==> s == SpinBonus(1.5, 9)
    ensures 80 < roll <= 93 ==> s == SpinBonus(1.75, 8)
    ensures 93 < roll ==> s == SpinBonus(2.0, 7)
  {
    if roll <= 55 then NewSpinBonus(1.25, 10)
    else if roll <= 80 then NewSpinBonus(1.5, 9)
    else if roll <= 93 then NewSpinBonus(1.75, 8)
    else NewSpinBonus(2.0, 7)
  }

  /** A higher roll never gives a smaller multiplier, and trades seconds for
      multiplier: the multiplier grows exactly when the seconds shrink. */
  lemma SpinMonotone(r1: int, r2: int)
    requires 1 <= r1 <= r2 <= 100
    ensures SpinFor(r1).multiplier <= SpinFor(r2).multiplier
    ensures SpinFor(r1).seconds >= SpinFor(r2).seconds
    ensures SpinFor(r1).multiplier < SpinFor(r2).multiplier <==> SpinFor(r1).seconds > SpinFor(r2).seconds
    ensures 1.25 <= SpinFor(r1).multiplier <= 2.0 && 7 <= SpinFor(r1).seconds <= 10
  {
  }

  /** The guaranteed reward kind of a crate of the given rarity. */
  function GuaranteedFor(rarity: Rarity): (g: Option<RewardKind>)
    ensures g == Some(Keys) <==> rarity.AtLeast(Epic)
    ensures g == Some(Candy) <==> rarity == Rare
    ensures g == None <==> rarity.Below(Rare)
  {
    if rarity.AtLeast(Epic) then Some(Keys)
    else if rarity.AtLeast(Rare) then Some(Candy)
    else None
  }

  // ---------------------------------------------------------------------
  // The stock table

  /** The built-in drop table. */
  function CrimsonTable(): (t: DropTable)
    ensures |t.rewards| == 5 && |t.boosters| == 5
    ensures forall i :: 0 <= i < |t.rewards| ==> t.rewards[i].InRange()
    ensures forall i :: 0 <= i < |t.boosters| ==> t.boosters[i].InRange()
  {
    DropTable(
      [ RewardChance(Coins, 6, 22, Common, 52),
        RewardChance(Candy, 2, 10, Uncommon, 22),
        RewardChance(Keys, 1, 3, Rare, 14),
        RewardChance(Hearts, 6, 16, Epic, 8),
        RewardChance(Boosters, 1, 1, Legendary, 4) ],
      [ BoosterChance(DoubleTap, 8, 18, Uncommon, 38),
        BoosterChance(BonusDrop, 8, 16, Rare, 26),
        BoosterChance(Magnet, 10, 18, Rare, 18),
        BoosterChance(Shield, 10, 16, Epic, 12),
        BoosterChance(Frenzy, 6, 12, Legendary, 6) ])
  }

  /** The stock table's weights both sum to 100, so they read as
      percentages. */
  lemma CrimsonWeightsArePercentages()
    ensures WeightSum(RewardWeights(CrimsonTable().rewards)) == 100
    ensures WeightSum(BoosterWeights(CrimsonTable().boosters)) == 100
  {
    var ws := RewardWeights(CrimsonTable().rewards);
    assert ws == [52, 22, 14, 8, 4];
    SumOfFive(ws);
    var bw := BoosterWeights(CrimsonTable().boosters);
    assert bw == [38, 26, 18, 12, 6];
    SumOfFive(bw);
  }

  lemma SumOfFive(ws: seq<int>)
    requires |ws| == 5 && forall i :: 0 <= i < 5 ==> ws[i] >= 0
    ensures WeightSum(ws) == ws[0] + ws[1] + ws[2] + ws[3] + ws[4]
  {
    assert WeightSum(ws[..1]) == ws[0] by { assert ws[..1][..0] == []; }
    assert WeightSum(ws[..2]) == ws[0] + ws[1] by { assert ws[..2][..1] == ws[..1]; }
    assert WeightSum(ws[..3]) == ws[0] + ws[1] + ws[2] by { assert ws[..3][..2] == ws[..2]; }
    assert WeightSum(ws[..4]) == ws[0] + ws[1] + ws[2] + ws[3] by { assert ws[..4][..3] == ws[..3]; }
    assert ws[..5] == ws;
  }

  /** A full bag of the stock table holds 100 entries, 52 of them coins. */
  lemma CrimsonBagHoldsOneHundred()
    ensures |BagFor(CrimsonTable().rewards)| == 100
    ensures multiset(BagFor(CrimsonTable().rewards))[0] == 52
  {
    var rs := CrimsonTable().rewards;
    CrimsonWeightsArePercentages();
    assert rs[0].weight > 0;
    BagIsFair(rs, 0);
  }

  /** A fill is never empty. */
  lemma BagNonEmpty(rs: seq<RewardChance>, bag: seq<int>)
    requires multiset(bag) == multiset(BagFor(rs))
    ensures bag != []
  {
    assert |BagFor(rs)| > 0;
    assert |multiset(bag)| > 0;
  }

  /** Moving the bag's last index to the drawn list keeps the fill intact,
      and that index is one the table can use. */
  lemma Take(drawn: seq<int>, rest: seq<int>, idx: int, t: DropTable)
    requires Unused(drawn, rest + [idx], t)
    ensures Unused(drawn + [idx], rest, t)
    ensures 0 <= idx < Max(1, |t.rewards|)
  {
    assert idx in multiset(rest + [idx]);
    assert multiset(BagFor(t.rewards))[idx] > 0;
    BagIndices(t.rewards, idx);
  }

  // ---------------------------------------------------------------------
  // The reward system object

  /** Every entry of the table is in range, as the clamping initialisers
      leave it. */
  predicate TableInRange(t: DropTable)
  {
    && (forall i :: 0 <= i < |t.rewards| ==> t.rewards[i].InRange())
    && (forall i :: 0 <= i < |t.boosters| ==> t.boosters[i].InRange())
  }

  /** The bag holds what is left of one full fill after `drawn` was taken out. */
  ghost predicate Unused(drawn: seq<int>, bag: seq<int>, t: DropTable)
  {
    multiset(drawn) + multiset(bag) == multiset(BagFor(t.rewards))
  }

  /** While the bag started as `bag0` lasts, the indices `idxs` were taken
      from its end one by one, and each was recorded as drawn. */
  ghost predicate PulledFromEnd(bag0: seq<int>, drawn0: seq<int>, bag: seq<int>, drawn: seq<int>, idxs: seq<int>)
  {
    |idxs| <= |bag0| ==> drawn == drawn0 + idxs && bag == bag0[..|bag0| - |idxs|]
  }

  /** One more pull from the end of a non-empty bag extends `PulledFromEnd`. */
  lemma PulledFromEndSnoc(bag0: seq<int>, drawn0: seq<int>, bag: seq<int>, drawn: seq<int>, idxs: seq<int>,
                          bag': seq<int>, drawn': seq<int>, idx: int)
    requires PulledFromEnd(bag0, drawn0, bag, drawn, idxs)
    requires bag != [] ==> drawn' == drawn + [idx] && bag' == bag[..|bag| - 1]
    ensures PulledFromEnd(bag0, drawn0, bag', drawn', idxs + [idx])
  {
    if |idxs| + 1 <= |bag0| {
      assert bag0[..|bag0| - |idxs|][..|bag0| - |idxs| - 1] == bag0[..|bag0| - (|idxs| + 1)];
    }
  }

  /** The k-th reward of `list` comes from the entry `rs[idxs[k]]`. */
  predicate FromEntries(rs: seq<RewardChance>, list: seq<Reward>, idxs: seq<int>)
  {
    |idxs| == |list| && forall k :: 0 <= k < |list| ==> 0 <= idxs[k] < |rs| && FromReward(list[k], rs[idxs[k]])
  }

  /** One more reward from a named entry extends `FromEntries`. */
  lemma FromEntriesSnoc(rs: seq<RewardChance>, list: seq<Reward>, idxs: seq<int>, r: Reward, idx: int)
    requires FromEntries(rs, list, idxs)
    requires 0 <= idx < |rs| && FromReward(r, rs[idx])
    ensures FromEntries(rs, list + [r], idxs + [idx])
  {
  }

  /** Rewards each produced by a named entry are rewards the table offers. */
  lemma EntriesAreOffered(rs: seq<RewardChance>, list: seq<Reward>, idxs: seq<int>)
    requires |idxs| == |list|
    requires forall k :: 0 <= k < |list| ==> 0 <= idxs[k] < |rs| && FromReward(list[k], rs[idxs[k]])
    ensures forall k :: 0 <= k < |list| ==> OffersReward(rs, list[k])
  {
    forall k | 0 <= k < |list|
      ensures OffersReward(rs, list[k])
    {
      assert FromReward(list[k], rs[idxs[k]]);
    }
  }

  class RewardSystem {
    var lastRewards: seq<Reward>
    var lastBoosters: seq<Booster>
    var lastSpin: Option<SpinBonus>
    var coinsTotal: int
    var candyTotal: int
    var keysTotal: int
    var table: DropTable
    var bag: seq<int>
    /** The indices drawn since the bag was last filled. */
    ghost var drawn: seq<int>

    function Tally(): Totals
      reads this`coinsTotal, this`candyTotal, this`keysTotal
    {
      Totals(coinsTotal, candyTotal, keysTotal)
    }

    /** The table's entries are in range (the clamping initialisers built
        them) and the bag is the unused part of one full fill. */
    ghost predicate Valid()
      reads this`table, this`bag, this`drawn
    {
      TableInRange(table) && Unused(drawn, bag, table)
    }

    constructor()
      ensures Valid()
      ensures table == CrimsonTable() && drawn == []
      ensures lastRewards == [] && lastBoosters == [] && lastSpin == None && Tally() == Totals(0, 0, 0)
    {
      table := CrimsonTable();
      new;
      ClearResults();
      RefillBag();
    }

    /** Replaces the table and refills the bag from it. */
    method SetTable(newTable: DropTable)
      requires Valid()
      requires TableInRange(newTable)
      modifies this`table, this`bag, this`drawn
      ensures Valid() && table == newTable && drawn == []
      ensures multiset(bag) == multiset(BagFor(newTable.rewards))
    {
      table := newTable;
      RefillBag();
    }

    /** Clears the last results and the totals, and refills the bag. */
    method ResetAll()
      requires Valid()
      modifies this`lastRewards, this`lastBoosters, this`lastSpin, this`coinsTotal, this`candyTotal, this`keysTotal
      modifies this`bag, this`drawn
      ensures Valid() && drawn == [] && multiset(bag) == multiset(BagFor(table.rewards))
      ensures lastRewards == [] && lastBoosters == [] && lastSpin == None && Tally() == Totals(0, 0, 0)
    {
      ClearResults();
      assert TableInRange(table);
      RefillBag();
    }

    /** The first half of `resetAll`: last results and totals cleared. */
    method ClearResults()
      modifies this`lastRewards, this`lastBoosters, this`lastSpin, this`coinsTotal, this`candyTotal, this`keysTotal
      ensures lastRewards == [] && lastBoosters == [] && lastSpin == None && Tally() == Totals(0, 0, 0)
    {
      lastRewards, lastBoosters, lastSpin := [], [], None;
      coinsTotal, candyTotal, keysTotal := 0, 0, 0;
    }

    /** `rollBundle`: between 1 and 8 rewards (the count clamped), each
        drawn from the bag and credited to the totals in order. The table
        must have at least one reward: with none, the source's clamped
        index is -1 and the subscript traps. `idxs` are the indices pulled
        from the bag, one per reward; while the bag lasts they are the
        bag's last entries, taken from the end. */
    method RollBundle(count: int) returns (list: seq<Reward>, ghost idxs: seq<int>)
      requires Valid() && table.rewards != []
      modifies this`lastRewards, this`coinsTotal, this`candyTotal, this`keysTotal, this`bag, this`drawn
      ensures Valid()
      ensures |list| == Clamp(count, 1, 8) && lastRewards == list && |idxs| == |list|
      ensures forall k :: 0 <= k < |list| ==> 0 <= idxs[k] < |table.rewards| && FromReward(list[k], table.rewards[idxs[k]])
      ensures forall k :: 0 <= k < |list| ==> OffersReward(table.rewards, list[k])
      ensures PulledFromEnd(old(bag), old(drawn), bag, drawn, idxs)
      ensures Tally() == CreditedAll(old(Tally()), list)
    {
      list, idxs := RollRewards(Min(Max(1, count), 8));
      lastRewards := list;
      EntriesAreOffered(table.rewards, list, idxs);
    }

    /** The loop of `rollBundle`: `c` rewards drawn and credited in turn. */
    method RollRewards(c: nat) returns (list: seq<Reward>, ghost idxs: seq<int>)
      requires Valid() && table.rewards != []
      modifies this`coinsTotal, this`candyTotal, this`keysTotal, this`bag, this`drawn
      ensures Valid() && |list| == c && |idxs| == c
      ensures forall k :: 0 <= k < c ==> 0 <= idxs[k] < |table.rewards| && FromReward(list[k], table.rewards[idxs[k]])
      ensures PulledFromEnd(old(bag), old(drawn), bag, drawn, idxs)
      ensures Tally() == CreditedAll(old(Tally()), list)
    {
      ghost var start, rs, bag0, drawn0 := Tally(), table.rewards, bag, drawn;
      list, idxs := [], [];
      for i := 0 to c
        invariant Valid() && table.rewards == rs
        invariant |list| == i && |idxs| == i
        invariant FromEntries(rs, list, idxs)
        invariant PulledFromEnd(bag0, drawn0, bag, drawn, idxs)
        invariant Tally() == CreditedAll(start, list)
      {
        ghost var bag1, drawn1 := bag, drawn;
        var r, idx := RollAndCredit();
        CreditedAllSnoc(start, list, r);
        PulledFromEndSnoc(bag0, drawn0, bag1, drawn1, idxs, bag, drawn, idx);
        FromEntriesSnoc(rs, list, idxs, r, idx);
        list, idxs := list + [r], idxs + [idx];
      }
    }

    /** One round of the `rollBundle` loop: a reward drawn from the entry
        of the pulled index `idx`, then credited. */
    method RollAndCredit() returns (r: Reward, ghost idx: int)
      requires Valid() && table.rewards != []
      modifies this`coinsTotal, this`candyTotal, this`keysTotal, this`bag, this`drawn
      ensures Valid() && 0 <= idx < |table.rewards| && FromReward(r, table.rewards[idx])
      ensures |drawn| >= 1 && idx == drawn[|drawn| - 1]
      ensures old(bag) != [] ==> drawn == old(drawn) + [idx] && bag == old(bag)[..|old(bag)| - 1]
      ensures old(bag) == [] ==> drawn == [idx] && |bag| + 1 == |BagFor(table.rewards)|
      ensures Tally() == Credited(old(Tally()), r)
    {
      r, idx := RollSingleReward();
      ApplyRewardToTotals(r);
    }

    /** `rollBoosterBundle`: between 1 and 4 boosters (the count clamped),
        each from the table's weighted pool; the bag and the totals are not
        touched. */
    method RollBoosterBundle(count: int) returns (list: seq<Booster>)
      requires Valid()
      modifies this`lastBoosters
      ensures |list| == Clamp(count, 1, 4) && lastBoosters == list
      ensures forall k :: 0 <= k < |list| ==> OffersBooster(table.boosters, list[k])
    {
      var c := Min(Max(1, count), 4);
      list := [];
      for i := 0 to c
        invariant |list| == i
        invariant forall k :: 0 <= k < i ==> OffersBooster(table.boosters, list[k])
      {
        var b := RollSingleBooster();
        list := list + [b];
      }
      lastBoosters := list;
    }

    /** `rollSpinBonus`, with its 1..100 roll as an argument. */
    method RollSpinBonus(roll: int) returns (s: SpinBonus)
      requires 1 <= roll <= 100
      modifies this`lastSpin
      ensures s == SpinFor(roll) && lastSpin == Some(s)
    {
      if roll <= 55 {
        lastSpin := Some(NewSpinBonus(1.25, 10));
      } else if roll <= 80 {
        lastSpin := Some(NewSpinBonus(1.5, 9));
      } else if roll <= 93 {
        lastSpin := Some(NewSpinBonus(1.75, 8));
      } else {
        lastSpin := Some(NewSpinBonus(2.0, 7));
      }
      s := lastSpin.value;
    }

    /** `rollCrate`: a crate over the current table, with keys guaranteed
        from Epic up, candy for Rare, and nothing below Rare. */
    method RollCrate(name: string, rarity: Rarity) returns (crate: LootCrate)
      ensures crate.name == Trim(name) && crate.rarity == rarity && crate.table == table
      ensures crate.guaranteed == GuaranteedFor(rarity)
      ensures crate.guaranteed.Some? <==> rarity.AtLeast(Rare)
    {
      var guaranteed: Option<RewardKind>;
      if rarity.AtLeast(Epic) {
        guaranteed := Some(Keys);
      } else if rarity.AtLeast(Rare) {
        guaranteed := Some(Candy);
      } else {
        guaranteed := None;
      }
      crate := NewLootCrate(name, rarity, guaranteed, table);
    }

    // Internals

    /** `refillBag`: the weighted indices (ten zeros if none), shuffled.
        The shuffle is any permutation. */
    method RefillBag()
      modifies this`bag, this`drawn
      ensures multiset(bag) == multiset(BagFor(table.rewards)) && drawn == []
    {
      var filled := BuildWeighted(RewardWeights(table.rewards));
      if filled == [] {
        filled := seq(10, _ => 0);
      }
      var shuffled :| multiset(shuffled) == multiset(filled);
      bag := shuffled;
      drawn := [];
    }

    /** `pullIndex`: refills an empty bag, then removes and returns its
        last index. */
    method PullIndex() returns (idx: int)
      requires Valid()
      modifies this`bag, this`drawn
      ensures Valid()
      ensures |drawn| >= 1 && idx == drawn[|drawn| - 1] && 0 <= idx < Max(1, |table.rewards|)
      ensures old(bag) != [] ==> drawn == old(drawn) + [idx] && old(bag) == bag + [idx]
      ensures old(bag) == [] ==> drawn == [idx] && multiset(bag + [idx]) == multiset(BagFor(table.rewards))
    {
      if bag == [] {
        RefillBag();
        BagNonEmpty(table.rewards, bag);
      }
      idx := bag[|bag| - 1];
      var rest := bag[..|bag| - 1];
      assert bag == rest + [idx];
      Take(drawn, rest, idx, table);
      bag := rest;
      drawn := drawn + [idx];
    }

    /** `rollSingleReward`: the drawn index picks the table entry; the
        amount is its minimum when the range is a single value and a uniform
        draw from the range otherwise. */
    method RollSingleReward() returns (r: Reward, ghost idx: int)
      requires Valid() && table.rewards != []
      modifies this`bag, this`drawn
      ensures Valid() && 0 <= idx < |table.rewards|
      ensures FromReward(r, table.rewards[idx]) && OffersReward(table.rewards, r)
      ensures |drawn| >= 1 && idx == drawn[|drawn| - 1]
      ensures old(bag) != [] ==> drawn == old(drawn) + [idx] && bag == old(bag)[..|old(bag)| - 1]
      ensures old(bag) == [] ==> drawn == [idx] && |bag| + 1 == |BagFor(table.rewards)|
    {
      var i := PullIndex();
      idx := i;
      var info := table.rewards[Min(Max(0, i), |table.rewards| - 1)];
      r := RewardOf(info);
    }

    /** `rollSingleBooster`: the fallback booster for an empty list;
        otherwise a uniform pick from the weighted pool, so a zero-weight
        booster comes up only when every weight is zero. */
    method RollSingleBooster() returns (b: Booster)
      requires Valid()
      ensures OffersBooster(table.boosters, b)
    {
      var list := table.boosters;
      if list == [] {
        return FallbackBooster();
      }
      var j := PickWeighted(list);
      b := BoosterOf(list[j]);
    }

    /** `applyRewardToTotals`. */
    method ApplyRewardToTotals(r: Reward)
      modifies this`coinsTotal, this`candyTotal, this`keysTotal
      ensures Tally() == Credited(old(Tally()), r)
    {
      match r.kind {
        case Coins => coinsTotal := coinsTotal + r.amount;
        case Candy => candyTotal := candyTotal + r.amount;
        case Keys => keysTotal := keysTotal + r.amount;
        case Boosters =>
        case Hearts =>
        case Tickets => coinsTotal := coinsTotal + r.amount;
      }
    }
  }

  /** Over one full cycle of the bag, from a fill until it is empty again,
      every reward index is drawn exactly as many times as its weight. */
  lemma FullCycleIsFair(sys: RewardSystem, j: int)
    requires sys.Valid() && sys.bag == []
    requires exists i :: 0 <= i < |sys.table.rewards| && sys.table.rewards[i].weight > 0
    ensures multiset(sys.drawn)[j] == if 0 <= j < |sys.table.rewards| then sys.table.rewards[j].weight else 0
  {
    BagIsFair(sys.table.rewards, j);
  }
}

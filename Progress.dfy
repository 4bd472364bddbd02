/** The progress store: one clamped snapshot of the player's totals, kept
    under a single key of a key-value store, with a one-line status.

    The key-value store is a map from keys to stored values; a stored value
    is either an encoded snapshot or data that does not decode. The clock
    reading of `save` and `mergeCoins` is a parameter. */
module PinataProgress {
  import opened Basics
  import opened PinataBoard

  datatype Snapshot = Snapshot(
    coins: int,
    candy: int,
    keys: int,
    bestStreak: int,
    totalTaps: int,
    totalDamage: real,
    lastLevelId: int,
    lastSavedAt: real)
  {
    predicate InRange()
    {
      && coins >= 0 && candy >= 0 && keys >= 0 && bestStreak >= 0 && totalTaps >= 0
      && totalDamage >= 0.0 && lastLevelId >= 1 && lastSavedAt >= 0.0
    }
  }

  /** The snapshot initialiser: counts, damage and save time are clamped to
      at least 0, the level id to at least 1. */
  function NewSnapshot(coins: int, candy: int, keys: int, bestStreak: int, totalTaps: int,
                       totalDamage: real, lastLevelId: int, lastSavedAt: real): (s: Snapshot)
    ensures s.InRange()
    ensures Snapshot(coins, candy, keys, bestStreak, totalTaps, totalDamage, lastLevelId, lastSavedAt).InRange() ==>
              s == Snapshot(coins, candy, keys, bestStreak, totalTaps, totalDamage, lastLevelId, lastSavedAt)
    ensures coins >= 0 ==> s.coins == coins
    ensures candy >= 0 ==> s.candy == candy
    ensures keys >= 0 ==> s.keys == keys
    ensures bestStreak >= 0 ==> s.bestStreak == bestStreak
    ensures totalTaps >= 0 ==> s.totalTaps == totalTaps
    ensures totalDamage >= 0.0 ==> s.totalDamage == totalDamage
    ensures lastLevelId >= 1 ==> s.lastLevelId == lastLevelId
    ensures lastSavedAt >= 0.0 ==> s.lastSavedAt == lastSavedAt
    ensures coins < 0 ==> s.coins == 0
    ensures candy < 0 ==> s.candy == 0
    ensures keys < 0 ==> s.keys == 0
    ensures bestStreak < 0 ==> s.bestStreak == 0
    ensures totalTaps < 0 ==> s.totalTaps == 0
    ensures totalDamage < 0.0 ==> s.totalDamage == 0.0
    ensures lastLevelId < 1 ==> s.lastLevelId == 1
    ensures lastSavedAt < 0.0 ==> s.lastSavedAt == 0.0
  {
    Snapshot(Max(0, coins), Max(0, candy), Max(0, keys), Max(0, bestStreak), Max(0, totalTaps),
             MaxR(0.0, totalDamage), Max(1, lastLevelId), MaxR(0.0, lastSavedAt))
  }

  /** `fresh()`: nothing earned, level 1, never saved. */
  function Fresh(): (s: Snapshot)
    ensures s.InRange()
    ensures s == Snapshot(0, 0, 0, 0, 0, 0.0, 1, 0.0)
  {
    NewSnapshot(0, 0, 0, 0, 0, 0.0, 1, 0.0)
  }

  /** The status line: "Empty" for a snapshot never saved, otherwise its
      coins, keys and best streak. */
  datatype StatusLine = Empty | Summary(coins: int, keys: int, best: int)

  function StatusOf(s: Snapshot): (line: StatusLine)
    ensures line == Empty <==> s.lastSavedAt <= 0.0
    ensures line != Empty ==> line == Summary(s.coins, s.keys, s.bestStreak)
  {
    if s.lastSavedAt <= 0.0 then Empty else Summary(s.coins, s.keys, s.bestStreak)
  }

  const ProgressKey: string := "boniata.pinata.progress"

  /** What the key-value store holds under a key. */
  datatype Stored = Encoded(snapshot: Snapshot) | Undecodable

  /** `load`: the stored snapshot if the key is present and decodes,
      `fresh()` otherwise. */
  function Loaded(defaults: map<string, Stored>): (s: Snapshot)
    ensures ProgressKey !in defaults ==> s == Fresh()
    ensures ProgressKey in defaults && defaults[ProgressKey].Undecodable? ==> s == Fresh()
    ensures ProgressKey in defaults && defaults[ProgressKey].Encoded? ==> s == defaults[ProgressKey].snapshot
  {
    if ProgressKey in defaults && defaults[ProgressKey].Encoded? then defaults[ProgressKey].snapshot
    else Fresh()
  }

  /** The snapshot `save` takes of a board. */
  function SavedFrom(v: Board, levelId: int, now: real): Snapshot
  {
    NewSnapshot(v.coins, v.candy, v.keys, v.streakBest, v.tapsTotal, v.damageTotal, levelId, now)
  }

  /** The snapshot `mergeCoins` makes. */
  function Merged(s: Snapshot, add: int, now: real): Snapshot
  {
    NewSnapshot(s.coins + Max(0, add), s.candy, s.keys, s.bestStreak, s.totalTaps, s.totalDamage, s.lastLevelId, now)
  }

  // ---------------------------------------------------------------------
  // Properties

  /** What is saved loads back unchanged; after a reset, loading gives
      `fresh()`. Other keys are never touched. */
  lemma SaveThenLoad(defaults: map<string, Stored>, s: Snapshot)
    ensures Loaded(defaults[ProgressKey := Encoded(s)]) == s
    ensures Loaded(defaults - {ProgressKey}) == Fresh()
    ensures forall k :: k in defaults && k != ProgressKey ==>
              k in defaults[ProgressKey := Encoded(s)] && defaults[ProgressKey := Encoded(s)][k] == defaults[k]
  {
  }

  /** A save of a board whose invariant holds copies its totals exactly. */
  lemma SaveCopiesBoard(v: Board, levelId: int, now: real)
    requires Inv(v) && now >= 0.0
    ensures var s := SavedFrom(v, levelId, now);
      && s.coins == v.coins && s.candy == v.candy && s.keys == v.keys
      && s.bestStreak == v.streakBest && s.totalTaps == v.tapsTotal && s.totalDamage == v.damageTotal
      && s.lastLevelId == Max(1, levelId) && s.lastSavedAt == now
  {
  }

  /** On an in-range snapshot, merging adds `max(0, add)` coins and moves
      the save time, and leaves every other field alone; coins never
      decrease. */
  lemma MergeTouchesOnlyCoins(s: Snapshot, add: int, now: real)
    requires s.InRange() && now >= 0.0
    ensures Merged(s, add, now) == s.(coins := s.coins + Max(0, add), lastSavedAt := now)
    ensures Merged(s, add, now).coins >= s.coins
    ensures add <= 0 ==> Merged(s, add, now).coins == s.coins
  {
  }

  /** A fresh snapshot reads "Empty"; one saved at a positive time does not. */
  lemma StatusAfterSave(v: Board, levelId: int, now: real)
    ensures StatusOf(Fresh()) == Empty
    ensures now > 0.0 ==> StatusOf(SavedFrom(v, levelId, now)) != Empty
    ensures now <= 0.0 ==> StatusOf(SavedFrom(v, levelId, now)) == Empty
  {
  }

  // ---------------------------------------------------------------------
  // The store object

  class ProgressStore {
    var snapshot: Snapshot
    var status: StatusLine
    var defaults: map<string, Stored>

    ghost predicate Valid()
      reads this
    {
      status == StatusOf(snapshot)
    }

    /** `init()`: load from the given key-value store. */
    constructor(store: map<string, Stored>)
      ensures Valid() && defaults == store && snapshot == Loaded(store)
    {
      defaults := store;
      snapshot := Fresh();
      status := Empty;
      new;
      Load();
      RefreshStatus();
    }

    method Load()
      modifies this`snapshot, this`status
      ensures Valid() && snapshot == Loaded(defaults)
    {
      if ProgressKey !in defaults {
        snapshot := Fresh();
        RefreshStatus();
        return;
      }
      match defaults[ProgressKey] {
        case Encoded(decoded) =>
          snapshot := decoded;
        case Undecodable =>
          snapshot := Fresh();
      }
      RefreshStatus();
    }

    method Save(board: BoardState, levelId: int, now: real)
      modifies this
      ensures Valid() && snapshot == SavedFrom(board.State(), levelId, now)
      ensures defaults == old(defaults)[ProgressKey := Encoded(snapshot)]
    {
      var snap := NewSnapshot(board.coins, board.candy, board.keys, board.streakBest, board.tapsTotal,
                              board.damageTotal, levelId, now);
      snapshot := snap;
      Persist(snap);
      RefreshStatus();
    }

    method MergeCoins(add: int, now: real)
      modifies this
      ensures Valid() && snapshot == Merged(old(snapshot), add, now)
      ensures defaults == old(defaults)[ProgressKey := Encoded(snapshot)]
    {
      var delta := Max(0, add);
      var next := NewSnapshot(snapshot.coins + delta, snapshot.candy, snapshot.keys, snapshot.bestStreak,
                              snapshot.totalTaps, snapshot.totalDamage, snapshot.lastLevelId, now);
      snapshot := next;
      Persist(next);
      RefreshStatus();
    }

    method ResetAll()
      modifies this
      ensures Valid() && snapshot == Fresh() && status == Empty
      ensures defaults == old(defaults) - {ProgressKey}
    {
      snapshot := Fresh();
      defaults := defaults - {ProgressKey};
      RefreshStatus();
    }

    method Persist(value: Snapshot)
      modifies this`defaults
      ensures defaults == old(defaults)[ProgressKey := Encoded(value)]
    {
      defaults := defaults[ProgressKey := Encoded(value)];
    }

    method RefreshStatus()
      modifies this`status
      ensures Valid()
    {
      var s := snapshot;
      if s.lastSavedAt <= 0.0 {
        status := Empty;
        return;
      }
      status := Summary(s.coins, s.keys, s.bestStreak);
    }
  }

  /** Saving a board and then opening a new store on the same key-value
      store gives back the saved totals. */
  method SaveThenReopen(board: BoardState, levelId: int, now: real, store: map<string, Stored>)
      returns (reopened: Snapshot)
    requires board.Valid() && now > 0.0
    ensures reopened == SavedFrom(board.State(), levelId, now)
    ensures reopened.coins == board.coins && reopened.totalTaps == board.tapsTotal
    ensures StatusOf(reopened) == Summary(board.coins, board.keys, board.streakBest)
  {
    var first := new ProgressStore(store);
    first.Save(board, levelId, now);
    var second := new ProgressStore(first.defaults);
    SaveThenLoad(store, first.snapshot);
    reopened := second.snapshot;
  }
}

/** The tap engine: a thin driver over one board. It keeps the current level
    (used only for the tap cooldowns), rate-limits taps, fires bursts, and
    ends the round as soon as the pinata is popped.

    The engine's own clock reading is the `now` of the tap input it is
    given; the board reads the clock again inside `simulateTap`, and the
    model takes both readings as the same instant. */
module PinataEngine {
  import opened Basics
  import opened PinataModels
  import opened PinataLevels
  import opened PinataBoard

  /** The engine's observable state: its board, its level and the time of
      the last tap it let through. */
  datatype Engine = Engine(board: Board, level: LevelConfig, lastTapTime: real)

  /** A crit roll as the random source produces it. */
  predicate RollOk(t: TapInput)
  {
    0.0 <= t.critRoll <= 1.0
  }

  /** `streakWindowMs / 1000 * factor` seconds: the minimum gap between two
      taps the engine lets through. */
  function Cooldown(level: LevelConfig, factor: real): real
  {
    level.streakWindowMs as real / 1000.0 * factor
  }

  /** What `tap`, `heavyTap` and `burst` do last: stop the session when the
      pinata is popped. */
  function EndIfPopped(v: Board): (w: Board)
    ensures w.pinataHealth == v.pinataHealth
    ensures w.pinataHealth <= 0.0 ==> !w.isActive
    ensures v.pinataHealth > 0.0 ==> w == v
  {
    if v.pinataHealth <= 0.0 then StopStep(v) else v
  }

  /** `applyLevel`: the level is stored, the board reset and restarted. */
  function ApplyLevelStep(e: Engine, config: LevelConfig): Engine
  {
    Engine(StartStep(ResetStep(e.board)), config, e.lastTapTime)
  }

  /** `tap`: nothing while Idle or inside the 15% cooldown; otherwise one
      board tap, and the round ends if it popped the pinata. */
  function TapEngineStep(e: Engine, t: TapInput): Engine
  {
    if !e.board.isActive || t.now - e.lastTapTime < Cooldown(e.level, 0.15) then e
    else Engine(EndIfPopped(TapStep(e.board, t)), e.level, t.now)
  }

  /** `heavyTap`: like `tap` with a 25% cooldown, and a second board tap
      when the multiplier exceeds 1 (even if the first one popped it). */
  function HeavyTapStep(e: Engine, multiplier: real, t1: TapInput, t2: TapInput): Engine
  {
    if !e.board.isActive || t1.now - e.lastTapTime < Cooldown(e.level, 0.25) then e
    else
      var b1 := TapStep(e.board, t1);
      var b2 := if multiplier > 1.0 then TapStep(b1, t2) else b1;
      Engine(EndIfPopped(b2), e.level, t1.now)
  }

  /** Taps number `i` to `c - 1` of a burst, stopping right after the tap
      that pops the pinata. */
  function BurstRun(v: Board, c: nat, ins: nat -> TapInput, i: nat): Board
    decreases c - i
  {
    if i >= c then v
    else
      var w := TapStep(v, ins(i));
      if w.pinataHealth <= 0.0 then w else BurstRun(w, c, ins, i + 1)
  }

  /** `burst`: nothing while Idle; otherwise between 1 and 8 taps (the
      count clamped) with no cooldown, then the round ends if popped. */
  function BurstStep(e: Engine, count: int, ins: nat -> TapInput): Engine
  {
    if !e.board.isActive then e
    else e.(board := EndIfPopped(BurstRun(e.board, Clamp(count, 1, 8), ins, 0)))
  }

  /** `dropBonus`: a drop only while Active; while Idle nothing changes. */
  function DropBonusStep(e: Engine, d: DropInput): Engine
    requires d.WellFormed()
  {
    if !e.board.isActive then e else e.(board := DropStep(e.board, d))
  }

  /** `injectReward` and `injectBooster`: an unguarded drop, whatever reward
      or booster was passed in. */
  function InjectStep(e: Engine, d: DropInput): Engine
    requires d.WellFormed()
  {
    e.(board := DropStep(e.board, d))
  }

  // ---------------------------------------------------------------------
  // Properties

  /** A tap inside the cooldown is dropped; a tap outside it on an active
      board counts exactly one board tap, records its time, and leaves the
      board stopped if the pinata popped. */
  lemma TapRespectsCooldown(e: Engine, t: TapInput)
    requires Inv(e.board)
    ensures t.now - e.lastTapTime < Cooldown(e.level, 0.15) ==> TapEngineStep(e, t) == e
    ensures var r := TapEngineStep(e, t);
      e.board.isActive && t.now - e.lastTapTime >= Cooldown(e.level, 0.15) ==>
        && r.board.tapsTotal == e.board.tapsTotal + 1
        && r.lastTapTime == t.now
        && (r.board.pinataHealth <= 0.0 <==> !r.board.isActive)
    ensures Inv(TapEngineStep(e, t).board)
  {
    if e.board.isActive {
      TapAccounting(e.board, t);
      var w := TapStep(e.board, t);
      assert w.isActive;
    }
  }

  /** A heavy tap that gets through counts two board taps when the
      multiplier exceeds 1 and one otherwise. Its cooldown is longer than the
      plain tap's whenever the streak window is positive. */
  lemma HeavyTapCounts(e: Engine, multiplier: real, t1: TapInput, t2: TapInput)
    requires Inv(e.board) && e.board.isActive && t1.now - e.lastTapTime >= Cooldown(e.level, 0.25)
    ensures var r := HeavyTapStep(e, multiplier, t1, t2);
      && r.board.tapsTotal == e.board.tapsTotal + (if multiplier > 1.0 then 2 else 1)
      && (r.board.pinataHealth <= 0.0 <==> !r.board.isActive)
      && Inv(r.board)
    ensures e.level.streakWindowMs > 0 ==> Cooldown(e.level, 0.15) < Cooldown(e.level, 0.25)
  {
    var b1 := TapStep(e.board, t1);
    TapAccounting(e.board, t1);
    if multiplier > 1.0 {
      TapAccounting(b1, t2);
    }
  }

  /** A burst on an active board taps at least once and at most `c` times,
      taps exactly `c` times unless it popped the pinata, and keeps the
      board's invariant. */
  lemma {:induction false} BurstRunCounts(v: Board, c: nat, ins: nat -> TapInput, i: nat)
    requires Inv(v) && v.isActive && i < c
    ensures var w := BurstRun(v, c, ins, i);
      && Inv(w) && w.isActive
      && v.tapsTotal + 1 <= w.tapsTotal <= v.tapsTotal + (c - i)
      && (w.pinataHealth > 0.0 ==> w.tapsTotal == v.tapsTotal + (c - i))
    decreases c - i
  {
    var w := TapStep(v, ins(i));
    TapAccounting(v, ins(i));
    if w.pinataHealth > 0.0 && i + 1 < c {
      BurstRunCounts(w, c, ins, i + 1);
    }
  }

  /** After a burst the round is over exactly when the pinata is popped. */
  lemma BurstEndsPoppedRound(e: Engine, count: int, ins: nat -> TapInput)
    requires Inv(e.board) && e.board.isActive
    ensures var r := BurstStep(e, count, ins);
      && (r.board.pinataHealth <= 0.0 <==> !r.board.isActive)
      && e.board.tapsTotal + 1 <= r.board.tapsTotal <= e.board.tapsTotal + Clamp(count, 1, 8)
      && Inv(r.board)
  {
    BurstRunCounts(e.board, Clamp(count, 1, 8), ins, 0);
  }

  /** The level chosen does not reach the board: applying any two levels
      to the same engine gives the same board, full health, Active. The
      level is only stored, and only the cooldowns depend on it. */
  lemma LevelDoesNotReachBoard(e: Engine, c1: LevelConfig, c2: LevelConfig)
    requires Inv(e.board)
    ensures ApplyLevelStep(e, c1).board == ApplyLevelStep(e, c2).board
    ensures var b := ApplyLevelStep(e, c1).board;
      b.isActive && b.pinataHealth == b.pinataMaxHealth == 100.0 && b.tapsTotal == 0 && b.config == e.board.config
    ensures ApplyLevelStep(e, c1).level == c1 && ApplyLevelStep(e, c1).lastTapTime == e.lastTapTime
  {
  }

  /** `restart` (and the reset-and-start inside `applyLevel`) begins a
      fresh round: Active and Live, every counter and currency 0, full
      health of 100, no boosters and no last tap or reward; the session
      config is kept, and the invariant holds. */
  lemma RestartStartsFreshRound(v: Board)
    requires Inv(v)
    ensures var w := StartStep(ResetStep(v));
      && w.isActive && w.status == Live
      && w.tapsTotal == 0 && w.streakCount == 0 && w.streakBest == 0 && w.critsTotal == 0 && w.damageTotal == 0.0
      && w.pinataHealth == 100.0 && w.pinataMaxHealth == 100.0
      && w.coins == 0 && w.candy == 0 && w.keys == 0 && w.activeBoosters == []
      && w.lastReward == None && w.lastTap == None && w.lastTapAt == 0.0
      && w.config == v.config && w.streakWindowMs == v.config.streakWindowMs
      && Inv(w)
  {
  }

  /** While Idle, `tap`, `heavyTap` and `burst` change nothing at all: not
      the board, not its status line, not the last tap time. */
  lemma IdleEngineIgnoresTaps(e: Engine, t: TapInput, multiplier: real, t2: TapInput, count: int, ins: nat -> TapInput)
    requires !e.board.isActive
    ensures TapEngineStep(e, t) == e
    ensures HeavyTapStep(e, multiplier, t, t2) == e
    ensures BurstStep(e, count, ins) == e
  {
  }

  /** While Idle, `dropBonus` changes nothing, but `injectReward` and
      `injectBooster` still move the status line to "drop skipped". */
  lemma IdleDropsDiffer(e: Engine, d: DropInput)
    requires !e.board.isActive && d.WellFormed()
    ensures DropBonusStep(e, d) == e
    ensures InjectStep(e, d) == e.(board := e.board.(status := DropSkipped))
    ensures e.board.status != DropSkipped ==> InjectStep(e, d) != DropBonusStep(e, d)
  {
  }

  // ---------------------------------------------------------------------
  // The engine object

  class TapEngine {
    const state: BoardState
    var level: LevelConfig
    var lastTapTime: real

    ghost function Snap(): Engine
      reads this, state
    {
      Engine(state.State(), level, lastTapTime)
    }

    ghost predicate Valid()
      reads this, state
    {
      state.Valid()
    }

    /** `init()`: a fresh board at the Warm Up level 1, reset and started. */
    constructor Default()
      ensures Valid() && fresh(state)
      ensures Snap() == ApplyLevelStep(Engine(Initial(), WarmUp(1), 0.0), WarmUp(1))
    {
      state := new BoardState();
      level := WarmUp(1);
      lastTapTime := 0.0;
      new;
      ApplyLevel(level);
    }

    /** `init(level:)`: a fresh board at the given level, reset and started. */
    constructor WithLevel(config: LevelConfig)
      ensures Valid() && fresh(state)
      ensures Snap() == ApplyLevelStep(Engine(Initial(), config, 0.0), config)
    {
      state := new BoardState();
      level := config;
      lastTapTime := 0.0;
      new;
      ApplyLevel(config);
    }

    /** `init(state:level:)`: an existing board, reset and started. */
    constructor WithState(board: BoardState, config: LevelConfig)
      requires board.Valid()
      modifies board
      ensures Valid() && state == board
      ensures Snap() == ApplyLevelStep(Engine(old(board.State()), config, 0.0), config)
    {
      state := board;
      level := config;
      lastTapTime := 0.0;
      new;
      ApplyLevel(config);
    }

    method ApplyLevel(config: LevelConfig)
      requires Valid()
      modifies this`level, state
      ensures Valid() && Snap() == ApplyLevelStep(old(Snap()), config)
    {
      level := config;
      state.ResetAllProgress();
      state.StartSession();
    }

    method Tap(t: TapInput)
      requires Valid() && RollOk(t)
      modifies this`lastTapTime, state
      ensures Valid() && Snap() == TapEngineStep(old(Snap()), t)
    {
      if !state.isActive {
        return;
      }
      var cooldown := level.streakWindowMs as real / 1000.0 * 0.15;
      if t.now - lastTapTime < cooldown {
        return;
      }
      lastTapTime := t.now;
      state.SimulateTap(t.now, t.critRoll);
      if state.pinataHealth <= 0.0 {
        EndRound();
      }
    }

    method HeavyTap(multiplier: real, t1: TapInput, t2: TapInput)
      requires Valid() && RollOk(t1) && RollOk(t2)
      modifies this`lastTapTime, state
      ensures Valid() && Snap() == HeavyTapStep(old(Snap()), multiplier, t1, t2)
    {
      if !state.isActive {
        return;
      }
      var cooldown := level.streakWindowMs as real / 1000.0 * 0.25;
      if t1.now - lastTapTime < cooldown {
        return;
      }
      lastTapTime := t1.now;
      state.SimulateTap(t1.now, t1.critRoll);
      if multiplier > 1.0 {
        state.SimulateTap(t2.now, t2.critRoll);
      }
      if state.pinataHealth <= 0.0 {
        EndRound();
      }
    }

    /** `ins(k)` is the clock reading and crit roll of the burst's k-th tap. */
    method Burst(count: int, ins: nat -> TapInput)
      requires Valid() && forall k: nat :: RollOk(ins(k))
      modifies state
      ensures Valid() && Snap() == BurstStep(old(Snap()), count, ins)
    {
      if !state.isActive {
        return;
      }
      var c := Min(Max(1, count), 8);
      ghost var result := BurstRun(state.State(), c, ins, 0);
      var i := 0;
      while i < c
        invariant 0 <= i <= c
        invariant state.Valid() && BurstRun(state.State(), c, ins, i) == result
        invariant unchanged(this)
      {
        var t := ins(i);
        state.SimulateTap(t.now, t.critRoll);
        if state.pinataHealth <= 0.0 {
          break;
        }
        i := i + 1;
      }
      assert state.State() == result;
      if state.pinataHealth <= 0.0 {
        EndRound();
      }
    }

    method DropBonus(d: DropInput)
      requires Valid() && d.WellFormed()
      modifies state
      ensures Valid() && Snap() == DropBonusStep(old(Snap()), d)
    {
      if !state.isActive {
        return;
      }
      state.SimulateDrop(d.roll, d.amountDraw, d.boosterRoll, d.secondsDraw);
    }

    method EndRound()
      requires Valid()
      modifies state
      ensures Valid() && Snap() == old(Snap()).(board := StopStep(old(Snap()).board))
    {
      state.StopSession();
    }

    method Restart()
      requires Valid()
      modifies state
      ensures Valid() && Snap() == old(Snap()).(board := StartStep(ResetStep(old(Snap()).board)))
    {
      state.ResetAllProgress();
      state.StartSession();
    }

    /** The reward passed in is not used: a drop is rolled as usual. */
    method InjectReward(reward: Reward, d: DropInput)
      requires Valid() && d.WellFormed()
      modifies state
      ensures Valid() && Snap() == InjectStep(old(Snap()), d)
    {
      state.SimulateDrop(d.roll, d.amountDraw, d.boosterRoll, d.secondsDraw);
    }

    /** The booster passed in is not used: a drop is rolled as usual. */
    method InjectBooster(booster: Booster, d: DropInput)
      requires Valid() && d.WellFormed()
      modifies state
      ensures Valid() && Snap() == InjectStep(old(Snap()), d)
    {
      state.SimulateDrop(d.roll, d.amountDraw, d.boosterRoll, d.secondsDraw);
    }
  }

  /** With the Warm Up level's 720 ms window the tap cooldown is 108 ms: of
      three taps at 0, 50 and 200 ms the middle one is dropped, and the
      third, inside the board's 650 ms streak window, continues the
      streak. */
  method CooldownScenario() returns (taps: int, streak: int)
    ensures taps == 2 && streak == 2
  {
    var engine := new TapEngine.Default();
    engine.Tap(TapInput(1000.0, 1.0));
    engine.Tap(TapInput(1000.05, 1.0));
    engine.Tap(TapInput(1000.2, 1.0));
    taps, streak := engine.state.tapsTotal, engine.state.streakCount;
  }
}

/** The level bookkeeping of the game (class GameInfo in main.py): the level counter,
    whether the current level has been started, and when it was started. Wall-clock
    time is passed in as `now` instead of being read from the system clock. */
module Levels {

  /** Number of levels; the game is won once the counter passes it. */
  const LEVELS: int := 10

  /** The observable state of a GameInfo object. */
  datatype Info = Info(level: int, started: bool, startTime: real)

  /** GameInfo(level): a new game at `level`, not started, start time 0. */
  function Initial(level: int): (i: Info)
    ensures i.level == level && !i.started && i.startTime == 0.0
  {
    Info(level, false, 0.0)
  }

  /** next_level: one level up and back to "press any key"; the old start time stays. */
  function AfterNextLevel(i: Info): (r: Info)
    ensures r.level == i.level + 1
    ensures !r.started && r.startTime == i.startTime
  {
    Info(i.level + 1, false, i.startTime)
  }

  /** reset: back to the first level, not started, start time 0. */
  function AfterReset(): (r: Info)
    ensures r == Initial(1)
    ensures !Finished(r)
  {
    Info(1, false, 0.0)
  }

  /** start_level at time `now`: the level counts as started from `now` on. */
  function AfterStart(i: Info, now: real): (r: Info)
    ensures r.level == i.level && r.started && r.startTime == now
  {
    Info(i.level, true, now)
  }

  /** game_finished: every level has been passed. */
  predicate Finished(i: Info) {
    i.level > LEVELS
  }

  /** get_level_time at time `now`: zero until the level is started, then the
      time elapsed since the start. */
  function LevelTime(i: Info, now: real): (t: real)
    ensures !i.started ==> t == 0.0
    ensures i.started && i.startTime <= now ==> t >= 0.0
  {
    if !i.started then 0.0 else now - i.startTime
  }

  /** The timer of a level started at `start` reads exactly `now - start`, and it
      reads zero again once the next level is reached and not yet started. */
  lemma TimerMeasuresSinceStart(i: Info, start: real, now: real)
    ensures LevelTime(AfterStart(i, start), now) == now - start
    ensures LevelTime(AfterNextLevel(AfterStart(i, start)), now) == 0.0
  {
  }

  /** The state after `n` successive calls of next_level. */
  function Advance(i: Info, n: nat): Info
    decreases n
  {
    if n == 0 then i else Advance(AfterNextLevel(i), n - 1)
  }

  /** `n` calls of next_level raise the level by exactly `n`, never touch the start
      time, and leave the level not started. */
  lemma {:induction false} AdvanceRaisesLevel(i: Info, n: nat)
    ensures Advance(i, n).level == i.level + n
    ensures Advance(i, n).startTime == i.startTime
    ensures n > 0 ==> !Advance(i, n).started
    decreases n
  {
    if n > 0 {
      AdvanceRaisesLevel(AfterNextLevel(i), n - 1);
    }
  }

  /** Starting from reset, the game is finished after `n` level-ups exactly when
      `n` is at least LEVELS: ten wins are needed, and ten suffice. */
  lemma TenLevelsFinishTheGame(n: nat)
    ensures Finished(Advance(AfterReset(), n)) <==> n >= LEVELS
  {
    AdvanceRaisesLevel(AfterReset(), n);
  }

  /** A GameInfo object; its methods change the fields in place. */
  class GameInfo {
    var level: int
    var started: bool
    var levelStartTime: real

    /** The fields as one value. */
    function State(): Info
      reads this
    {
      Info(level, started, levelStartTime)
    }

    constructor (level: int)
      ensures State() == Initial(level)
    {
      this.level := level;
      started := false;
      levelStartTime := 0.0;
    }

    method NextLevel()
      modifies this
      ensures State() == AfterNextLevel(old(State()))
    {
      level := level + 1;
      started := false;
    }

    method Reset()
      modifies this
      ensures State() == AfterReset()
    {
      level := 1;
      started := false;
      levelStartTime := 0.0;
    }

    function GameFinished(): (b: bool)
      reads this
      ensures b == Finished(State())
    {
      level > LEVELS
    }

    /** start_level, with the clock reading `now` passed in. */
    method StartLevel(now: real)
      modifies this
      ensures State() == AfterStart(old(State()), now)
    {
      started := true;
      levelStartTime := now;
    }

    /** get_level_time, with the clock reading `now` passed in. */
    function GetLevelTime(now: real): (t: real)
      reads this
      ensures t == LevelTime(State(), now)
    {
      if !started then 0.0 else now - levelStartTime
    }
  }
}

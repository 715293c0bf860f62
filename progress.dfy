/**
 * The XP and level arithmetic of the tracker: the persisted Stats record,
 * its default, the per-level threshold and the rollover loop of gainXP,
 * written as functions, with the properties the tracker relies on proved
 * as lemmas.
 */
module Progress {

  /** The persisted record. The source's numbers are modelled as integers. */
  datatype Stats = Stats(xp: int, level: int, streak: int, linesOfCode: int)

  /** What getStats returns when nothing has been stored yet. */
  const DefaultStats := Stats(0, 1, 0, 0)

  /** The XP the first level needs (BASE_XP in the source). */
  const BaseXP := 100

  /**
   * What the model assumes of the threshold floor(BASE_XP * level^1.008),
   * which the source computes in floating point: it is exactly BaseXP at
   * level 1, and at least BaseXP at every level from 1 on.
   */
  ghost predicate IsThreshold(xpFor: int -> int) {
    xpFor(1) == BaseXP && forall level :: level >= 1 ==> xpFor(level) >= BaseXP
  }

  /** The exit condition of the rollover loop, on a level that is at least 1. */
  predicate Settled(xpFor: int -> int, s: Stats) {
    s.level >= 1 && s.xp < xpFor(s.level)
  }

  /** Settled and not negative: the record's intended invariant. */
  predicate Normalised(xpFor: int -> int, s: Stats) {
    Settled(xpFor, s) && 0 <= s.xp
  }

  /** The XP it takes to climb from level lo to level hi: the sum of the thresholds of lo .. hi-1. */
  function LevelCost(xpFor: int -> int, lo: int, hi: int): int
    decreases hi - lo
  {
    if lo >= hi then 0 else xpFor(lo) + LevelCost(xpFor, lo + 1, hi)
  }

  /** All XP a record stands for, counted from level 1 with no XP. */
  function TotalXP(xpFor: int -> int, s: Stats): int {
    s.xp + LevelCost(xpFor, 1, s.level)
  }

  /**
   * The rollover loop of gainXP: while the XP reaches the current level's
   * threshold, pay the threshold and go up one level.
   */
  function Settle(xpFor: int -> int, s: Stats): (r: Stats)
    requires IsThreshold(xpFor) && s.level >= 1
    ensures Settled(xpFor, r)
    ensures r.level >= s.level
    ensures r.streak == s.streak && r.linesOfCode == s.linesOfCode
    decreases s.xp
  {
    if s.xp >= xpFor(s.level) then
      Settle(xpFor, s.(xp := s.xp - xpFor(s.level), level := s.level + 1))
    else
      s
  }

  /** gainXP on the loaded record: add the award, then roll over. */
  function Gain(xpFor: int -> int, s: Stats, amount: int): (r: Stats)
    requires IsThreshold(xpFor) && s.level >= 1
    ensures Settled(xpFor, r)
    ensures r.level >= s.level
    ensures r.streak == s.streak && r.linesOfCode == s.linesOfCode
  {
    Settle(xpFor, s.(xp := s.xp + amount))
  }

  /**
   * L is the level the loop stops at when it starts from s: every level
   * from s.level up to L-1 is paid for in turn, and what is left falls
   * short of L's threshold.
   */
  ghost predicate FirstShortfall(xpFor: int -> int, s: Stats, L: int) {
    && s.level <= L
    && (forall k :: s.level <= k < L ==> s.xp - LevelCost(xpFor, s.level, k) >= xpFor(k))
    && s.xp - LevelCost(xpFor, s.level, L) < xpFor(L)
  }

  lemma {:induction false} LevelCostSplit(xpFor: int -> int, lo: int, mid: int, hi: int)
    requires lo <= mid <= hi
    ensures LevelCost(xpFor, lo, hi) == LevelCost(xpFor, lo, mid) + LevelCost(xpFor, mid, hi)
    decreases mid - lo
  {
    if lo < mid {
      LevelCostSplit(xpFor, lo + 1, mid, hi);
    }
  }

  /** Every level from 1 on costs at least BaseXP. */
  lemma {:induction false} LevelCostAtLeast(xpFor: int -> int, lo: int, hi: int)
    requires IsThreshold(xpFor) && 1 <= lo <= hi
    ensures LevelCost(xpFor, lo, hi) >= BaseXP * (hi - lo)
    decreases hi - lo
  {
    if lo < hi {
      LevelCostAtLeast(xpFor, lo + 1, hi);
    }
  }

  /** Conservation across rollovers: the XP left plus the thresholds paid is the XP the loop started with. */
  lemma {:induction false} SettleConserves(xpFor: int -> int, s: Stats)
    requires IsThreshold(xpFor) && s.level >= 1
    ensures Settle(xpFor, s).xp + LevelCost(xpFor, s.level, Settle(xpFor, s).level) == s.xp
    decreases s.xp
  {
    if s.xp >= xpFor(s.level) {
      SettleConserves(xpFor, s.(xp := s.xp - xpFor(s.level), level := s.level + 1));
    }
  }

  /** The loop stops at the first level whose threshold the remaining XP does not reach. */
  lemma {:induction false} SettleStopsAtFirstShortfall(xpFor: int -> int, s: Stats)
    requires IsThreshold(xpFor) && s.level >= 1
    ensures FirstShortfall(xpFor, s, Settle(xpFor, s).level)
    ensures Settle(xpFor, s) == s.(xp := s.xp - LevelCost(xpFor, s.level, Settle(xpFor, s).level),
                                   level := Settle(xpFor, s).level)
    decreases s.xp
  {
    SettleConserves(xpFor, s);
    if s.xp >= xpFor(s.level) {
      var next := s.(xp := s.xp - xpFor(s.level), level := s.level + 1);
      SettleStopsAtFirstShortfall(xpFor, next);
      var L := Settle(xpFor, s).level;
      forall k | s.level <= k < L
        ensures s.xp - LevelCost(xpFor, s.level, k) >= xpFor(k)
      {
        if k > s.level {
          assert s.xp - LevelCost(xpFor, s.level, k) == next.xp - LevelCost(xpFor, next.level, k);
        }
      }
    }
  }

  /** Conversely, a level meeting FirstShortfall is the one the loop stops at. */
  lemma {:induction false} FirstShortfallIsSettleLevel(xpFor: int -> int, s: Stats, L: int)
    requires IsThreshold(xpFor) && s.level >= 1
    requires FirstShortfall(xpFor, s, L)
    ensures Settle(xpFor, s).level == L
    decreases s.xp
  {
    if L > s.level {
      assert s.xp - LevelCost(xpFor, s.level, s.level) >= xpFor(s.level);
      var next := s.(xp := s.xp - xpFor(s.level), level := s.level + 1);
      forall k | next.level <= k < L
        ensures next.xp - LevelCost(xpFor, next.level, k) >= xpFor(k)
      {
        assert s.xp - LevelCost(xpFor, s.level, k) >= xpFor(k);
      }
      FirstShortfallIsSettleLevel(xpFor, next, L);
    }
  }

  /** The loop never takes a non-negative XP count below zero. */
  lemma {:induction false} SettleKeepsNonNegative(xpFor: int -> int, s: Stats)
    requires IsThreshold(xpFor) && s.level >= 1 && s.xp >= 0
    ensures Settle(xpFor, s).xp >= 0
    decreases s.xp
  {
    if s.xp >= xpFor(s.level) {
      SettleKeepsNonNegative(xpFor, s.(xp := s.xp - xpFor(s.level), level := s.level + 1));
    }
  }

  /** One award of a non-negative amount keeps a normalised record normalised, and the level never drops. */
  lemma GainKeepsNormalised(xpFor: int -> int, s: Stats, amount: int)
    requires IsThreshold(xpFor) && Normalised(xpFor, s) && amount >= 0
    ensures Normalised(xpFor, Gain(xpFor, s, amount))
    ensures Gain(xpFor, s, amount).level >= s.level
  {
    SettleKeepsNonNegative(xpFor, s.(xp := s.xp + amount));
  }

  /** An award moves the record's total XP since level 1 by exactly the amount. */
  lemma GainConservesTotal(xpFor: int -> int, s: Stats, amount: int)
    requires IsThreshold(xpFor) && s.level >= 1
    ensures TotalXP(xpFor, Gain(xpFor, s, amount)) == TotalXP(xpFor, s) + amount
  {
    var r := Gain(xpFor, s, amount);
    SettleConserves(xpFor, s.(xp := s.xp + amount));
    LevelCostSplit(xpFor, 1, s.level, r.level);
  }

  /** Each level climbed costs at least BaseXP, so an award climbs at most (xp + amount) / BaseXP levels. */
  lemma GainClimbsBoundedLevels(xpFor: int -> int, s: Stats, amount: int)
    requires IsThreshold(xpFor) && Normalised(xpFor, s) && amount >= 0
    ensures BaseXP * (Gain(xpFor, s, amount).level - s.level) <= s.xp + amount
  {
    var t := s.(xp := s.xp + amount);
    SettleConserves(xpFor, t);
    SettleKeepsNonNegative(xpFor, t);
    LevelCostAtLeast(xpFor, s.level, Settle(xpFor, t).level);
  }

  /** On a settled record an award of nothing changes nothing. */
  lemma GainZeroIsIdentity(xpFor: int -> int, s: Stats)
    requires IsThreshold(xpFor) && Settled(xpFor, s)
    ensures Gain(xpFor, s, 0) == s
  {
  }

  /**
   * A negative amount on a settled record never enters the loop: the level
   * stays and the XP simply drops, below zero if the amount is large enough.
   */
  lemma GainNegativeSkipsLoop(xpFor: int -> int, s: Stats, amount: int)
    requires IsThreshold(xpFor) && Settled(xpFor, s) && amount < 0
    ensures Gain(xpFor, s, amount) == s.(xp := s.xp + amount)
  {
  }

  /** The default record with an award of -1 leaves a negative XP count. */
  lemma GainNegativeBreaksNormalised(xpFor: int -> int)
    requires IsThreshold(xpFor)
    ensures Normalised(xpFor, DefaultStats)
    ensures Gain(xpFor, DefaultStats, -1) == Stats(-1, 1, 0, 0)
    ensures !Normalised(xpFor, Gain(xpFor, DefaultStats, -1))
  {
  }

  /** The default record is where play starts: normalised, and standing for no XP at all. */
  lemma DefaultIsFreshStart(xpFor: int -> int)
    requires IsThreshold(xpFor)
    ensures DefaultStats == Stats(0, 1, 0, 0)
    ensures Normalised(xpFor, DefaultStats)
    ensures TotalXP(xpFor, DefaultStats) == 0
  {
  }

  /** A save on a fresh record: 10 XP at level 1, no rollover. */
  lemma GainTenFromDefault(xpFor: int -> int)
    requires IsThreshold(xpFor)
    ensures Gain(xpFor, DefaultStats, 10) == Stats(10, 1, 0, 0)
  {
  }

  /** 95 XP at level 1 plus 10: the 100 XP threshold is paid and 5 XP carry into level 2. */
  lemma GainRollsOverIntoLevelTwo(xpFor: int -> int)
    requires IsThreshold(xpFor)
    ensures Gain(xpFor, Stats(95, 1, 0, 0), 10) == Stats(5, 2, 0, 0)
  {
  }
}

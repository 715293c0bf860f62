/**
 * The state the extension keeps between editor events: the stored Stats
 * record, the save-debounce flag and the reset timers it schedules. The
 * host's events become methods; the debounce timer firing is an explicit
 * event of its own.
 */
module Extension {
  import opened Progress

  datatype Option<T> = None | Some(value: T)

  /** XP awarded per event kind. */
  const SaveXP := 10
  const OpenXP := 5
  const ChangeXP := 1

  class Session {
    /** The per-level threshold (getXPForNextLevel). */
    const xpFor: int -> int
    /** The record in the host's key-value store; None until the first award. */
    var stored: Option<Stats>
    /** Set by a rewarded save, cleared by the reset timer. */
    var throttleSave: bool
    /** Reset timers scheduled and not yet fired. */
    var pendingResets: nat
    /** All XP the record stands for since level 1 with no XP: what it held at activation plus every award since. */
    ghost var earned: int

    /** The record getStats returns: the stored one, or the default when there is none. */
    function Current(): Stats
      reads this
    {
      match stored
      case Some(s) => s
      case None => DefaultStats
    }

    /**
     * The record is settled and accounts for every award, and a reset timer
     * is pending exactly while the flag is set (so never more than one).
     */
    ghost predicate Valid()
      reads this
    {
      && IsThreshold(xpFor)
      && Settled(xpFor, Current())
      && TotalXP(xpFor, Current()) == earned
      && pendingResets == (if throttleSave then 1 else 0)
    }

    /**
     * Activation: the flag starts clear with no reset pending, and the store
     * holds whatever an earlier activation saved (None on the first run).
     * A saved record was left by gainXP's loop, so it is settled.
     */
    constructor (xpFor: int -> int, saved: Option<Stats>)
      requires IsThreshold(xpFor)
      requires saved.Some? ==> Settled(xpFor, saved.value)
      ensures Valid()
      ensures this.xpFor == xpFor && stored == saved
      ensures saved.None? ==> Current() == DefaultStats && Normalised(xpFor, Current()) && earned == 0
      ensures !throttleSave && pendingResets == 0
    {
      this.xpFor := xpFor;
      stored := saved;
      throttleSave := false;
      pendingResets := 0;
      earned := TotalXP(xpFor, match saved case Some(v) => v case None => DefaultStats);
    }

    /** getStats: reads the store, falling back to the default record. */
    method GetStats() returns (s: Stats)
      ensures s == Current()
      ensures stored.Some? ==> s == stored.value
      ensures stored.None? ==> s == Stats(0, 1, 0, 0)
    {
      s := Current();
    }

    /** gainXP: adds the award, rolls over as many levels as it pays for, and stores the result. */
    method GainXP(amount: int)
      requires Valid()
      modifies this`stored, this`earned
      ensures Valid()
      ensures stored == Some(Gain(xpFor, old(Current()), amount))
      ensures earned == old(earned) + amount
      ensures Current().level >= old(Current()).level
      ensures Current().streak == old(Current()).streak && Current().linesOfCode == old(Current()).linesOfCode
      ensures old(Normalised(xpFor, Current())) && amount >= 0 ==> Normalised(xpFor, Current())
    {
      var stats := GetStats();
      ghost var start := stats.(xp := stats.xp + amount);
      stats := stats.(xp := stats.xp + amount);
      while stats.xp >= xpFor(stats.level)
        invariant stats.level >= 1
        invariant Settle(xpFor, stats) == Settle(xpFor, start)
        decreases stats.xp
      {
        stats := stats.(xp := stats.xp - xpFor(stats.level));
        stats := stats.(level := stats.level + 1);
      }
      GainConservesTotal(xpFor, old(Current()), amount);
      if amount >= 0 && Normalised(xpFor, old(Current())) {
        GainKeepsNormalised(xpFor, old(Current()), amount);
      }
      stored := Some(stats);
      earned := earned + amount;
    }

    /** Document saved: rewarded only while the flag is clear, then the flag is set and a reset is scheduled. */
    method OnDidSave()
      requires Valid()
      modifies this
      ensures Valid()
      ensures old(throttleSave) ==> unchanged(this)
      ensures !old(throttleSave) ==> stored == Some(Gain(xpFor, old(Current()), SaveXP)) && earned == old(earned) + SaveXP
      ensures throttleSave && pendingResets == 1
      ensures old(Normalised(xpFor, Current())) ==> Normalised(xpFor, Current())
    {
      if throttleSave {
        return;
      }
      GainXP(SaveXP);
      throttleSave := true;
      pendingResets := pendingResets + 1;
    }

    /** The reset timer scheduled by a rewarded save fires and clears the flag. */
    method OnTimerFires()
      requires Valid() && pendingResets > 0
      modifies this
      ensures Valid()
      ensures stored == old(stored) && earned == old(earned)
      ensures !throttleSave && pendingResets == 0
    {
      throttleSave := false;
      pendingResets := pendingResets - 1;
    }

    /** Document opened: 5 XP. */
    method OnDidOpen()
      requires Valid()
      modifies this
      ensures Valid()
      ensures stored == Some(Gain(xpFor, old(Current()), OpenXP)) && earned == old(earned) + OpenXP
      ensures throttleSave == old(throttleSave) && pendingResets == old(pendingResets)
      ensures old(Normalised(xpFor, Current())) ==> Normalised(xpFor, Current())
    {
      GainXP(OpenXP);
    }

    /** Document changed: 1 XP. */
    method OnDidChange()
      requires Valid()
      modifies this
      ensures Valid()
      ensures stored == Some(Gain(xpFor, old(Current()), ChangeXP)) && earned == old(earned) + ChangeXP
      ensures throttleSave == old(throttleSave) && pendingResets == old(pendingResets)
      ensures old(Normalised(xpFor, Current())) ==> Normalised(xpFor, Current())
    {
      GainXP(ChangeXP);
    }
  }

  /** Two saves in a row on a fresh session: only the first is rewarded; after the timer a save is rewarded again. */
  method RapidSavesAwardOnce(xpFor: int -> int) returns (afterTwo: Stats, afterThree: Stats)
    requires IsThreshold(xpFor)
    ensures afterTwo == Stats(10, 1, 0, 0)
    ensures afterThree == Stats(20, 1, 0, 0)
  {
    var session := new Session(xpFor, None);
    session.OnDidSave();
    session.OnDidSave();
    afterTwo := session.GetStats();
    GainTenFromDefault(xpFor);
    session.OnTimerFires();
    session.OnDidSave();
    afterThree := session.GetStats();
  }
}

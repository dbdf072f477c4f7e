/**
 The mode confirm: one question waiting at a time, and a cooldown between
 fuzzy-wake questions that nothing but time resets.
 */
module ModeConfirm {
  import opened Wrappers
  import opened Clock

  const CONFIRM_WINDOW: Time := 15_000_000_000
  const FUZZY_COOLDOWN: Time := 45_000_000_000

  datatype ConfirmKind = Sleep | Hibernate | FuzzyWake

  datatype Pending = Pending(kind: ConfirmKind, deadline: Time)

  /** Each time at least one cooldown after every earlier one. */
  ghost predicate Spaced(times: seq<Time>) {
    forall i, j :: 0 <= i < j < |times| ==> times[j] >= times[i] + (j - i) * FUZZY_COOLDOWN
  }

  class ModeConfirm {
    var pending: Option<Pending>
    var lastFuzzyArm: Option<Time>

    /** When fuzzy-wake questions were armed, oldest first. */
    ghost var fuzzyArms: seq<Time>

    /** Holds in every run, whatever the clock does and whatever clears and other arms come between. */
    ghost predicate Valid()
      reads this
    {
      && lastFuzzyArm == (if fuzzyArms == [] then None else Some(fuzzyArms[|fuzzyArms| - 1]))
      && Spaced(fuzzyArms)
    }

    constructor ()
      ensures Valid() && pending == None && fuzzyArms == []
    {
      pending, lastFuzzyArm := None, None;
      fuzzyArms := [];
    }

    predicate FuzzyCooldownElapsed(now: Time)
      reads this
    {
      lastFuzzyArm.None? || SaturatingSince(now, lastFuzzyArm.value) >= FUZZY_COOLDOWN
    }

    /** `arm`: refused while any question waits, expired or not, and while a fuzzy one cools down. */
    method Arm(kind: ConfirmKind, now: Time) returns (armed: bool)
      requires Valid()
      modifies this
      ensures Valid()
      ensures armed <==>
        old(pending) == None
        && (kind == FuzzyWake ==> forall i :: 0 <= i < |old(fuzzyArms)| ==> now - old(fuzzyArms)[i] >= 45 * 1_000_000_000)
      ensures armed ==> pending == Some(Pending(kind, now + 15 * 1_000_000_000))
      ensures !armed ==> pending == old(pending)
      ensures fuzzyArms == old(fuzzyArms) + (if armed && kind == FuzzyWake then [now] else [])
    {
      if pending.Some? {
        return false;
      }
      if kind == FuzzyWake && !FuzzyCooldownElapsed(now) {
        assert now - fuzzyArms[|fuzzyArms| - 1] < FUZZY_COOLDOWN;
        return false;
      }
      if kind == FuzzyWake {
        SpacedAfter(fuzzyArms, now);
        lastFuzzyArm := Some(now);
        fuzzyArms := fuzzyArms + [now];
      }
      pending := Some(Pending(kind, now + CONFIRM_WINDOW));
      return true;
    }

    /** `clear`: the question goes, the fuzzy clock stays. */
    method Clear()
      requires Valid()
      modifies this
      ensures Valid() && pending == None && fuzzyArms == old(fuzzyArms) && lastFuzzyArm == old(lastFuzzyArm)
    {
      pending := None;
    }

    method FuzzyAllowed(now: Time) returns (allowed: bool)
      requires Valid()
      ensures allowed <==>
        pending == None && forall i :: 0 <= i < |fuzzyArms| ==> now - fuzzyArms[i] >= 45 * 1_000_000_000
    {
      if pending == None && fuzzyArms != [] && FuzzyCooldownElapsed(now) { SpacedAfter(fuzzyArms, now); }
      if pending == None && !FuzzyCooldownElapsed(now) {
        assert now - fuzzyArms[|fuzzyArms| - 1] < FUZZY_COOLDOWN;
      }
      return pending == None && FuzzyCooldownElapsed(now);
    }
  }

  /** Waiting one cooldown after the last arm is waiting long enough after all of them. */
  lemma SpacedAfter(times: seq<Time>, now: Time)
    requires Spaced(times) && (times != [] ==> now - times[|times| - 1] >= FUZZY_COOLDOWN)
    ensures Spaced(times + [now])
    ensures forall i :: 0 <= i < |times| ==> now - times[i] >= FUZZY_COOLDOWN
  {
    var n := |times|;
    forall i | 0 <= i < n ensures now >= times[i] + (n - i) * FUZZY_COOLDOWN {
      if i < n - 1 { assert times[n - 1] >= times[i] + (n - 1 - i) * FUZZY_COOLDOWN; }
    }
  }

  /** How many of the times fall in `[from, until]`. */
  function CountInSpan(times: seq<Time>, from: Time, until: Time): nat {
    if times == [] then 0
    else
      CountInSpan(times[..|times| - 1], from, until)
      + (if from <= times[|times| - 1] <= until then 1 else 0)
  }

  lemma {:induction false} CountIsCapped(times: seq<Time>, from: Time, until: Time, latest: Time)
    requires forall i :: 0 <= i < |times| ==> times[i] <= latest
    requires latest <= until
    ensures CountInSpan(times, from, until) == CountInSpan(times, from, latest)
    ensures latest < from ==> CountInSpan(times, from, until) == 0
  {
    if times != [] { CountIsCapped(times[..|times| - 1], from, until, latest); }
  }

  /** A span of T holds at most T / 45 s + 1 fuzzy-wake questions. */
  lemma {:induction false} FewArmsInSpan(times: seq<Time>, from: Time, until: Time)
    requires Spaced(times) && from <= until
    ensures CountInSpan(times, from, until) <= (until - from) / 45_000_000_000 + 1
  {
    if times != [] {
      var front, last := times[..|times| - 1], times[|times| - 1];
      if from <= last <= until {
        var latest := last - FUZZY_COOLDOWN;
        forall i | 0 <= i < |front| ensures front[i] <= latest {
          assert last >= times[i] + (|times| - 1 - i) * FUZZY_COOLDOWN;
        }
        CountIsCapped(front, from, until, latest);
        if from <= latest { FewArmsInSpan(front, from, latest); }
      } else {
        FewArmsInSpan(front, from, until);
      }
    }
  }
}

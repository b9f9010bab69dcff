/**
  The bootloader environment, the two boot scripts that count and roll back a trial boot, and
  the agent's writes to that environment.
 */
module BootScript {
  import opened Digits

  datatype Slot = A | B

  function Other(s: Slot): Slot {
    if s == A then B else A
  }

  /** The variables a trial boot uses; an unset variable reads as the empty text. */
  datatype Env = Env(part: Slot, upgrade: string, count: string, limit: string)

  datatype Loader = Grub | Uboot | NoLoader

  const DEFAULT_BOOTLIMIT := "3"
  const MAX_ARMABLE_BOOTLIMIT := 8

  function LimitText(env: Env): string {
    if env.limit == "" then DEFAULT_BOOTLIMIT else Strip(env.limit)
  }

  function Limit(env: Env): nat {
    DecRead(LimitText(env))
  }

  // --- the boot scripts --------------------------------------------------------------------------

  /** `setexpr` counts in hexadecimal; the grub script knows 0..4 and saturates. */
  function Bumped(loader: Loader, count: string): (r: string)
    ensures r != "0"
  {
    if loader.Grub? then
      if |count| == 1 && '0' <= count[0] <= '4' then [count[0] + 1 as char] else "99"
    else
      var n := HexRead(Strip(count)) + 1;
      HexTextIsZeroIff(n);
      HexText(n)
  }

  /** A script counts first and rolls back an open trial that is over its limit. */
  predicate RollsBack(loader: Loader, env: Env) {
    env.upgrade == "1" && DecRead(Bumped(loader, env.count)) > Limit(env)
  }

  function Boot(loader: Loader, env: Env): Env {
    if RollsBack(loader, env) then Env(Other(env.part), "0", "1", env.limit)
    else env.(count := Bumped(loader, env.count))
  }

  // --- the agent's writes --------------------------------------------------------------------------

  /** An environment tool reports success, or failure with or without having written. */
  datatype Write = Done | Lost(written: bool)

  function Written(before: Env, after: Env, w: Write): Env {
    if w == Lost(false) then before else after
  }

  predicate ArmableLimit(env: Env) {
    var t := LimitText(env);
    t != "" && AllDec(t) && 1 <= Limit(env) <= MAX_ARMABLE_BOOTLIMIT
  }

  /** Whether the counter is a decimal number of at least `limit`. */
  predicate AtLeast(count: string, limit: nat) {
    var t := Strip(count);
    t != "" && AllDec(t) && DecVal(t) >= limit
  }

  function ArmTrial(loader: Loader, env: Env, listed: bool, w: Write): (r: (Env, bool)) {
    if loader.NoLoader? || !listed || !ArmableLimit(env) then (env, false)
    else
      if AtLeast(env.count, Limit(env)) then (env, true)
      else (Written(env, env.(count := DecText(Limit(env))), w), w.Done?)
  }

  /** The bootloader module of the agent: each call is one environment tool invocation, which comes to `w`. */
  class Bootloader {
    const loader: Loader
    var env: Env

    constructor (loader: Loader, env: Env)
      ensures this.loader == loader && this.env == env
    {
      this.loader := loader;
      this.env := env;
    }

    method Run(next: Env, w: Write) returns (ok: bool)
      modifies this
      ensures env == Written(old(env), next, w) && (ok <==> w.Done?)
    {
      if w != Lost(false) {
        env := next;
      }
      ok := w.Done?;
    }

    /** One invocation opens the trial; a slot other than a or b is refused before it. */
    method SetUpgradePending(target: string, w: Write) returns (ok: bool)
      modifies this
      ensures target !in ["a", "b"] ==> !ok && env == old(env)
      ensures loader.NoLoader? ==> env == old(env) && (ok <==> target in ["a", "b"])
      ensures target in ["a", "b"] && !loader.NoLoader? ==>
                && env == Written(old(env), Pending(old(env), if target == "a" then A else B), w)
                && (ok <==> w.Done?)
    {
      if target !in ["a", "b"] {
        return false;
      }
      if loader.NoLoader? {
        return true;
      }
      ok := Run(Pending(env, if target == "a" then A else B), w);
    }

    method CommitBootLocal(w: Write) returns (ok: bool)
      modifies this
      ensures loader.NoLoader? ==> ok && env == old(env)
      ensures !loader.NoLoader? ==> env == Written(old(env), Committed(old(env)), w) && (ok <==> w.Done?)
    {
      if loader.NoLoader? {
        return true;
      }
      ok := Run(Committed(env), w);
    }

    /** Nothing is written without a listing of the environment and a limit in 1..8. */
    method ArmTrialRollback(listed: bool, w: Write) returns (ok: bool)
      modifies this
      ensures (env, ok) == ArmTrial(loader, old(env), listed, w)
    {
      if loader.NoLoader? || !listed {
        return false;
      }
      var text := LimitText(env);
      if text == "" || !AllDec(text) || !(1 <= DecRead(text) <= MAX_ARMABLE_BOOTLIMIT) {
        return false;
      }
      var limit := DecRead(text);
      if AtLeast(env.count, limit) {
        return true;
      }
      ok := Run(env.(count := DecText(limit)), w);
    }
  }

  function Pending(env: Env, target: Slot): Env {
    env.(part := target, upgrade := "1", count := "0")
  }

  function Committed(env: Env): Env {
    env.(upgrade := "0", count := "0")
  }

  // --- arming ----------------------------------------------------------------------------------------

  /** The hexadecimal script over a decimal counter sees the stepped number. */
  lemma UbootSees(count: string)
    requires AllDec(Strip(count)) && Strip(count) != ""
    ensures DecRead(Bumped(Uboot, count)) == Stepped(DecVal(Strip(count)))
  {
    var t := IncrementReads(Strip(count));
    assert t == Bumped(Uboot, count);
  }

  lemma GrubSees(count: string)
    ensures DecRead(Bumped(Grub, count)) ==
              if |count| == 1 && '0' <= count[0] <= '4' then Value(count[0]) + 1 else 99
  {
    var r := Bumped(Grub, count);
    if |count| == 1 && '0' <= count[0] <= '4' {
      OneDigit(r);
      assert Value(r[0]) == Value(count[0]) + 1;
    } else {
      assert r == "99" && r[..1] == "9" && "9"[..0] == "";
      assert DecVal("9") == 9;
    }
  }

  lemma OneDigit(count: string)
    requires |count| == 1 && IsDec(count[0])
    ensures Strip(count) == count && AllDec(count) && DecVal(count) == Value(count[0])
  {
    assert count[..0] == "";
  }

  /** A counter at or over the limit makes the grub script roll back. */
  lemma GrubRollsBack(env: Env)
    requires env.upgrade == "1" && ArmableLimit(env) && AtLeast(env.count, Limit(env))
    ensures RollsBack(Grub, env)
  {
    GrubSees(env.count);
    if |env.count| == 1 && '0' <= env.count[0] <= '4' {
      OneDigit(env.count);
    }
  }

  /** A counter at or over the limit makes the u-boot script roll back, unless it ends in 9. */
  lemma UbootRollsBackIff(env: Env)
    requires env.upgrade == "1" && ArmableLimit(env) && AtLeast(env.count, Limit(env))
    ensures var n := DecVal(Strip(env.count));
            RollsBack(Uboot, env) <==> n % 10 != 9 || n / 10 > Limit(env)
  {
    UbootSees(env.count);
  }

  lemma ArmedCount(env: Env)
    requires ArmableLimit(env)
    ensures var t := DecText(Limit(env)); AtLeast(t, Limit(env)) && !AtLeast(t, Limit(env) + 1)
  {
    DecTextReads(Limit(env));
    StripDigits(DecText(Limit(env)));
  }

  /**
    Arming answers true if and only if there is a loader, a listing and an armable limit, and the counter
    is at the limit already or the write is done.  It touches only the counter, leaves one that is at or
    over the limit alone, and makes any other exactly the limit.
   */
  lemma ArmTrialMeans(loader: Loader, env: Env, listed: bool, w: Write)
    ensures var (env', ok) := ArmTrial(loader, env, listed, w);
            var due := AtLeast(env.count, Limit(env));
            && (ok <==> !loader.NoLoader? && listed && ArmableLimit(env) && (due || w.Done?))
            && env' == env.(count := env'.count) && (due || w == Lost(false) ==> env' == env)
            && (ok ==> AtLeast(env'.count, Limit(env)))
            && (ok && !due ==> !AtLeast(env'.count, Limit(env) + 1))
  {
    if ArmableLimit(env) {
      ArmedCount(env);
    }
  }

  /** The counter is at the limit of an open trial. */
  predicate Armed(env: Env) {
    env.upgrade == "1" && ArmableLimit(env) && AtLeast(env.count, Limit(env)) && !AtLeast(env.count, Limit(env) + 1)
  }

  lemma ArmedEnv(loader: Loader, env: Env, listed: bool, w: Write)
    requires env.upgrade == "1" && ArmTrial(loader, env, listed, w).1 && !AtLeast(env.count, Limit(env) + 1)
    ensures Armed(ArmTrial(loader, env, listed, w).0)
  {
    ArmedCount(env);
  }

  lemma ArmedIsDue(env: Env)
    requires Armed(env)
    ensures RollsBack(Grub, env) && RollsBack(Uboot, env)
  {
    GrubRollsBack(env);
    UbootRollsBackIff(env);
  }

  /** Arming that succeeds with a counter not over the limit: both scripts roll back next. */
  lemma ArmedRollsBack(loader: Loader, env: Env, listed: bool, w: Write)
    requires env.upgrade == "1" && ArmTrial(loader, env, listed, w).1 && !AtLeast(env.count, Limit(env) + 1)
    ensures var env' := ArmTrial(loader, env, listed, w).0; RollsBack(Grub, env') && RollsBack(Uboot, env')
  {
    ArmedEnv(loader, env, listed, w);
    ArmedIsDue(ArmTrial(loader, env, listed, w).0);
  }

  /** Why the bound is 8: with any limit as the counter, u-boot rolls back unless it ends in 9. */
  lemma BoundIsTight(env: Env, limit: nat)
    requires env == Env(env.part, "1", DecText(limit), DecText(limit)) && limit >= 1
    ensures RollsBack(Uboot, env) <==> limit % 10 != 9
  {
    DecTextReads(limit);
    StripDigits(DecText(limit));
    UbootSees(env.count);
  }

  /** Arming an open trial with this limit makes u-boot roll back. */
  predicate LimitWorks(part: Slot, limit: nat) {
    RollsBack(Uboot, Env(part, "1", DecText(limit), DecText(limit)))
  }

  lemma LimitWorksIff(part: Slot, limit: nat)
    requires limit >= 1
    ensures LimitWorks(part, limit) <==> limit % 10 != 9
  {
    BoundIsTight(Env(part, "1", DecText(limit), DecText(limit)), limit);
  }

  /** ... and 8 is the largest bound under which it does for every limit. */
  lemma BoundIsLargest(part: Slot, bound: nat)
    ensures (forall limit: nat :: 1 <= limit <= bound ==> LimitWorks(part, limit)) <==> bound <= MAX_ARMABLE_BOOTLIMIT
  {
    if bound <= MAX_ARMABLE_BOOTLIMIT {
      forall limit: nat | 1 <= limit <= bound
        ensures LimitWorks(part, limit)
      {
        LimitWorksIff(part, limit);
      }
    } else {
      LimitWorksIff(part, 9);
      assert !LimitWorks(part, 9);
    }
  }

  /** Arming can succeed over a counter that is past the limit, and then u-boot stays on the slot. */
  lemma ArmedPastLimitExample()
    ensures var env := Env(B, "1", "9", "3");
            ArmTrial(Uboot, env, true, Done) == (env, true) && !RollsBack(Uboot, env)
  {
    var env := Env(B, "1", "9", "3");
    OneDigit("9");
    OneDigit("3");
    UbootSees("9");
  }

  // --- an unattended trial ---------------------------------------------------------------------------

  function BootN(loader: Loader, env: Env, n: nat): Env {
    if n == 0 then env else Boot(loader, BootN(loader, env, n - 1))
  }

  /** How many boots a trial gets before the one that rolls back. */
  function Boots(loader: Loader, limit: nat): nat {
    if loader.Grub? && limit > 5 then 5 else limit
  }

  lemma BumpedDigit(loader: Loader, j: nat)
    requires j <= 8
    ensures var r := DecRead(Bumped(loader, [Digit(j)])); if loader.Grub? && j > 4 then r == 99 else r == j + 1
    ensures !(loader.Grub? && j > 4) ==> Bumped(loader, [Digit(j)]) == [Digit(j + 1)]
  {
    OneDigit([Digit(j)]);
    if loader.Grub? {
      GrubSees([Digit(j)]);
    } else {
      UbootSees([Digit(j)]);
      HexTextNext(0, j + 1);
      assert [Digit(j)][..0] == "" && HexVal("") == 0;
    }
  }

  /** Left alone, a trial gets exactly its allowed boots and then rolls back. */
  lemma {:induction false} TrialExpires(loader: Loader, env: Env, n: nat)
    requires env.upgrade == "1" && env.count == "0" && ArmableLimit(env) && n <= Boots(loader, Limit(env))
    ensures BootN(loader, env, n) == env.(count := [Digit(n)])
    ensures RollsBack(loader, BootN(loader, env, n)) <==> n == Boots(loader, Limit(env))
  {
    if n > 0 {
      TrialExpires(loader, env, n - 1);
      BumpedDigit(loader, n - 1);
    }
    BumpedDigit(loader, n);
  }

  /**
    A new trial boots its target exactly as often as the limit allows, three times if none is set, and
    with the next boot the other slot, the trial closed and one boot counted.
   */
  lemma NewTrialExpires(loader: Loader, env: Env, target: Slot, n: nat)
    requires !loader.NoLoader? && ArmableLimit(env)
    ensures var trial, last := Pending(env, target), Boots(loader, Limit(env));
            && (n <= last ==> BootN(loader, trial, n).part == target && BootN(loader, trial, n).upgrade == "1")
            && BootN(loader, trial, last + 1) == Env(Other(target), "0", "1", env.limit)
            && (env.limit == "" ==> last == 3)
  {
    var trial, last := Pending(env, target), Boots(loader, Limit(env));
    if n <= last {
      TrialExpires(loader, trial, n);
    }
    TrialExpires(loader, trial, last);
    if env.limit == "" {
      OneDigit("3");
    }
  }
}

/**
  The A/B trial boot as a transition system: reboots at any moment, the boot script that counts
  and rolls back, and the agent that verifies, commits or arms the rollback between them.
 */
module TrialBoot {
  import opened Digits
  import opened BootScript

  // --- the decision ----------------------------------------------------------------------------

  /** The trial is open, or it was committed locally and no boot has counted since. */
  predicate Accepts(env: Env) {
    env.upgrade == "1" || (env.upgrade == "0" && env.count == "0")
  }

  datatype Outcome = Refused | Unhealthy(armed: bool) | CommitFailed | Committed

  // --- the system ------------------------------------------------------------------------------

  /** Where the agent is in the decision; a reboot or a restart of the agent forgets it. */
  datatype Pc = Idle | Cleared(trial: bool) | Passed | GateFailed

  datatype State = State(loader: Loader, env: Env, running: Slot, pc: Pc)

  datatype Event =
    | PowerOn
    | Restart
    | Pend(target: Slot, w: Write)
    | Read(trusted: bool)
    | Check(passed: bool, gateFails: bool)
    | Commit(w: Write)
    | Arm(listed: bool, w: Write)

  predicate Enabled(s: State, e: Event) {
    match e
    case PowerOn => true
    case Restart => true
    case Pend(_, _) => s.pc == Idle
    case Read(_) => s.pc == Idle
    case Check(passed, gateFails) => s.pc.Cleared? && (gateFails ==> !passed && s.pc.trial)
    case Commit(_) => s.pc == Passed
    case Arm(_, _) => s.pc == GateFailed
  }

  function Step(s: State, e: Event): State
    requires Enabled(s, e)
  {
    match e
    case PowerOn => var env := Boot(s.loader, s.env); s.(env := env, running := env.part, pc := Idle)
    case Restart => s.(pc := Idle)
    case Pend(target, w) => s.(env := Written(s.env, Pending(s.env, target), w))
    case Read(trusted) => s.(pc := if trusted && Accepts(s.env) then Cleared(s.env.upgrade == "1") else Idle)
    case Check(passed, gateFails) => s.(pc := if passed then Passed else if gateFails then GateFailed else Idle)
    case Commit(w) => s.(env := Written(s.env, BootScript.Committed(s.env), w), pc := Idle)
    case Arm(listed, w) => s.(env := ArmTrial(s.loader, s.env, listed, w).0, pc := Idle)
  }

  ghost predicate StepAt(ss: seq<State>, es: seq<Event>, k: nat)
    requires |ss| == |es| + 1 && k < |es|
  {
    Enabled(ss[k], es[k]) && ss[k + 1] == Step(ss[k], es[k])
  }

  /** Any run of a station with a bootloader, from any state in which the agent is idle. */
  ghost predicate IsRun(ss: seq<State>, es: seq<Event>) {
    && |ss| == |es| + 1 && ss[0].pc == Idle && !ss[0].loader.NoLoader?
    && forall k: nat :: k < |es| ==> StepAt(ss, es, k)
  }

  ghost predicate Reaches(s: State, es: seq<Event>, s': State)
    decreases |es|
  {
    if es == [] then s == s' else Enabled(s, es[0]) && Reaches(Step(s, es[0]), es[1..], s')
  }

  lemma OneMore(s: State, e: Event, es: seq<Event>, s': State)
    requires Enabled(s, e) && Reaches(Step(s, e), es, s')
    ensures Reaches(s, [e] + es, s')
  {
    assert ([e] + es)[1..] == es;
  }

  /** From a cleared guard, the checks and then one write of the environment. */
  lemma DecidesIn(s: State, checks: Event, last: Event, s': State)
    requires s.pc == Idle && Accepts(s.env)
    requires checks.Check? && Enabled(s.(pc := Cleared(s.env.upgrade == "1")), checks)
    requires var t := Step(s.(pc := Cleared(s.env.upgrade == "1")), checks); Enabled(t, last) && Step(t, last) == s'
    ensures Reaches(s, [Read(true), checks, last], s')
  {
    var c := s.(pc := Cleared(s.env.upgrade == "1"));
    var t := Step(c, checks);
    assert Reaches(s', [], s');
    OneMore(t, last, [], s');
    OneMore(c, checks, [last], s');
    OneMore(s, Read(true), [checks, last], s');
    assert [Read(true)] + [checks, last] == [Read(true), checks, last] && [checks] + [last] == [checks, last];
  }

  // --- the procedure -----------------------------------------------------------------------------

  /**
    What the agent does with a deployment that waits for verification. `upgradeRead` and
    `countRead` say whether reading each variable works, `othersPass` and `gatePasses` what the
    health checks and the boot marker gate find, `listed` whether the environment can be listed, `w`
    what its write comes to and `posted` whether the server takes the commit.  `es` are the steps of
    the system it takes.  After `Unhealthy(true)` the agent reboots.
   */
  method VerifyAndCommit(bl: Bootloader, running: string, version: string, upgradeRead: bool, countRead: bool,
                         othersPass: bool, gatePasses: bool, listed: bool, w: Write, posted: bool)
    returns (outcome: Outcome, ghost es: seq<Event>)
    modifies bl
    ensures forall slot :: Reaches(State(bl.loader, old(bl.env), slot, Idle), es, State(bl.loader, bl.env, slot, Idle))
    ensures var trusted := running != "" && running == version && !bl.loader.NoLoader? && upgradeRead
                           && (old(bl.env).upgrade == "1" || countRead) && Accepts(old(bl.env));
            var gateFails := old(bl.env).upgrade == "1" && !gatePasses;
            if !trusted then outcome == Refused && bl.env == old(bl.env)
            else if gateFails then
              && outcome.Unhealthy? && (bl.env, outcome.armed) == ArmTrial(bl.loader, old(bl.env), listed, w)
              && es == [Read(true), Check(false, true), Arm(listed, w)]
            else if !othersPass then outcome == Unhealthy(false) && bl.env == old(bl.env)
            else
              && outcome == (if w.Done? && posted then Committed else CommitFailed)
              && bl.env == Written(old(bl.env), BootScript.Committed(old(bl.env)), w)
              && es == [Read(true), Check(true, false), Commit(w)]
    ensures outcome == Unhealthy(true) && !AtLeast(old(bl.env).count, Limit(old(bl.env)) + 1) ==>
              RollsBack(bl.loader, bl.env)
  {
    es := [Read(false)];
    if running == "" || running != version {
      return Refused, es;
    }
    var upgrade := if bl.loader.NoLoader? || !upgradeRead then "" else bl.env.upgrade;
    var count := if bl.loader.NoLoader? || !countRead then "" else bl.env.count;
    if !(upgrade == "1" || (upgrade == "0" && count == "0")) {
      return Refused, es;
    }
    ghost var before := bl.env;
    var gateFails := upgrade == "1" && !gatePasses;
    if othersPass && !gateFails {
      var ok := bl.CommitBootLocal(w);
      es := [Read(true), Check(true, false), Commit(w)];
      forall slot
        ensures Reaches(State(bl.loader, before, slot, Idle), es, State(bl.loader, bl.env, slot, Idle))
      {
        DecidesIn(State(bl.loader, before, slot, Idle), es[1], es[2], State(bl.loader, bl.env, slot, Idle));
      }
      return if ok && posted then Committed else CommitFailed, es;
    }
    if gateFails {
      var ok := bl.ArmTrialRollback(listed, w);
      if ok && !AtLeast(before.count, Limit(before) + 1) {
        ArmedRollsBack(bl.loader, before, listed, w);
      }
      es := [Read(true), Check(false, true), Arm(listed, w)];
      forall slot
        ensures Reaches(State(bl.loader, before, slot, Idle), es, State(bl.loader, bl.env, slot, Idle))
      {
        DecidesIn(State(bl.loader, before, slot, Idle), es[1], es[2], State(bl.loader, bl.env, slot, Idle));
      }
      return Unhealthy(ok), es;
    }
    es := [Read(true), Check(false, false)];
    outcome := Unhealthy(false);
  }

  // --- what happened in a run ------------------------------------------------------------------------

  ghost predicate RollsBackAt(ss: seq<State>, es: seq<Event>, k: nat)
    requires |ss| == |es| + 1
  {
    k < |es| && es[k] == PowerOn && RollsBack(ss[k].loader, ss[k].env)
  }

  predicate PendsAt(es: seq<Event>, k: nat) {
    k < |es| && es[k].Pend? && es[k].w != Lost(false)
  }

  predicate CommitsAt(es: seq<Event>, k: nat) {
    k < |es| && es[k].Commit? && es[k].w != Lost(false)
  }

  // --- since the last trial was opened ----------------------------------------------------------

  datatype Phase = Open | Sealed | Closed

  function NextPhase(p: Phase, s: State, e: Event): Phase {
    if e == PowerOn then if p == Open && !RollsBack(s.loader, s.env) then Open else Closed
    else if e.Commit? && e.w != Lost(false) then Sealed
    else p
  }

  /** What has become of the trial opened at `a`: open, committed, or rolled back or rebooted since. */
  function PhaseAt(ss: seq<State>, es: seq<Event>, a: nat, n: nat): Phase
    requires |ss| == |es| + 1 && a < n <= |es|
  {
    if n == a + 1 then Open else NextPhase(PhaseAt(ss, es, a, n - 1), ss[n - 1], es[n - 1])
  }

  predicate PhaseEnv(p: Phase, s: State) {
    && (p == Open ==> s.env.upgrade == "1")
    && (p == Sealed ==> s.env.upgrade == "0" && s.env.count == "0")
    && (p == Closed ==> s.env.upgrade == "0" && s.env.count != "0" && s.pc == Idle)
    && (s.pc == GateFailed || s.pc == Cleared(true) ==> p == Open)
  }

  lemma PhaseStep(p: Phase, s: State, e: Event)
    requires Enabled(s, e) && PhaseEnv(p, s) && (e.Pend? ==> e.w == Lost(false))
    ensures PhaseEnv(NextPhase(p, s, e), Step(s, e))
  {
  }

  /** A trial was opened at `a` and none has been since. */
  ghost predicate Trial(ss: seq<State>, es: seq<Event>, a: nat, n: nat) {
    IsRun(ss, es) && a < n <= |es| && PendsAt(es, a) && forall k :: a < k < n ==> !PendsAt(es, k)
  }

  lemma {:induction false} PhaseHolds(ss: seq<State>, es: seq<Event>, a: nat, n: nat)
    requires Trial(ss, es, a, n)
    ensures PhaseEnv(PhaseAt(ss, es, a, n), ss[n])
  {
    assert StepAt(ss, es, n - 1);
    if n > a + 1 {
      PhaseHolds(ss, es, a, n - 1);
      assert !PendsAt(es, n - 1);
      PhaseStep(PhaseAt(ss, es, a, n - 1), ss[n - 1], es[n - 1]);
    }
  }

  ghost predicate RolledBackIn(ss: seq<State>, es: seq<Event>, a: nat, n: nat)
    requires |ss| == |es| + 1
  {
    exists k: nat :: a < k < n && RollsBackAt(ss, es, k)
  }

  ghost predicate CommittedIn(es: seq<Event>, a: nat, n: nat) {
    exists k: nat :: a < k < n && CommitsAt(es, k)
  }

  ghost predicate BootedIn(es: seq<Event>, a: nat, n: nat) {
    exists k: nat :: a < k < n <= |es| && es[k] == PowerOn
  }

  ghost predicate RebootedSinceCommit(es: seq<Event>, a: nat, n: nat) {
    exists j: nat :: a < j && CommitsAt(es, j) && BootedIn(es, j, n)
  }

  lemma BootedNext(es: seq<Event>, a: nat, n: nat)
    requires a < n < |es|
    ensures BootedIn(es, a, n + 1) <==> BootedIn(es, a, n) || es[n] == PowerOn
  {
    if BootedIn(es, a, n + 1) {
      var k: nat :| a < k < n + 1 && es[k] == PowerOn;
      assert k < n ==> BootedIn(es, a, n);
    }
    if es[n] == PowerOn {
      assert BootedIn(es, a, n + 1);
    }
    if BootedIn(es, a, n) {
      var k: nat :| a < k < n && es[k] == PowerOn;
      assert es[k] == PowerOn;
    }
  }

  lemma RebootedNext(es: seq<Event>, a: nat, n: nat)
    requires a < n < |es|
    ensures RebootedSinceCommit(es, a, n + 1) <==>
              RebootedSinceCommit(es, a, n) || (es[n] == PowerOn && CommittedIn(es, a, n))
  {
    if RebootedSinceCommit(es, a, n + 1) {
      var j: nat :| a < j && CommitsAt(es, j) && BootedIn(es, j, n + 1);
      if j < n {
        BootedNext(es, j, n);
      }
    }
    if RebootedSinceCommit(es, a, n) {
      var j: nat :| a < j && CommitsAt(es, j) && BootedIn(es, j, n);
      BootedNext(es, j, n);
    }
    if es[n] == PowerOn && CommittedIn(es, a, n) {
      var j: nat :| a < j < n && CommitsAt(es, j);
      BootedNext(es, j, n);
    }
  }

  lemma RolledBackNext(ss: seq<State>, es: seq<Event>, a: nat, n: nat)
    requires |ss| == |es| + 1 && a < n < |es|
    ensures RolledBackIn(ss, es, a, n + 1) <==> RolledBackIn(ss, es, a, n) || RollsBackAt(ss, es, n)
    ensures CommittedIn(es, a, n + 1) <==> CommittedIn(es, a, n) || CommitsAt(es, n)
  {
  }

  /** One event moves the phase as it moves the three facts it stands for. */
  lemma PhaseFacts(p: Phase, s: State, e: Event, rolled: bool, committed: bool, rebooted: bool)
    requires PhaseEnv(p, s) && Enabled(s, e)
    requires p == Open <==> !rolled && !committed
    requires p == Closed <==> rolled || rebooted
    ensures var rolled' := rolled || (e == PowerOn && RollsBack(s.loader, s.env));
            var committed' := committed || (e.Commit? && e.w != Lost(false));
            var rebooted' := rebooted || (e == PowerOn && committed);
            && (NextPhase(p, s, e) == Open <==> !rolled' && !committed')
            && (NextPhase(p, s, e) == Closed <==> rolled' || rebooted')
  {
  }

  /** The phase says what happened since `a`. */
  ghost predicate PhaseTells(ss: seq<State>, es: seq<Event>, a: nat, n: nat)
    requires |ss| == |es| + 1 && a < n <= |es|
  {
    && (PhaseAt(ss, es, a, n) == Open <==> !RolledBackIn(ss, es, a, n) && !CommittedIn(es, a, n))
    && (PhaseAt(ss, es, a, n) == Closed <==> RolledBackIn(ss, es, a, n) || RebootedSinceCommit(es, a, n))
  }

  lemma PhaseTellsNext(ss: seq<State>, es: seq<Event>, a: nat, n: nat)
    requires Trial(ss, es, a, n + 1) && a < n && PhaseTells(ss, es, a, n)
    ensures PhaseTells(ss, es, a, n + 1)
  {
    PhaseHolds(ss, es, a, n);
    assert StepAt(ss, es, n);
    RolledBackNext(ss, es, a, n);
    RebootedNext(es, a, n);
    PhaseFacts(PhaseAt(ss, es, a, n), ss[n], es[n], RolledBackIn(ss, es, a, n), CommittedIn(es, a, n),
               RebootedSinceCommit(es, a, n));
  }

  lemma {:induction false} PhaseMeans(ss: seq<State>, es: seq<Event>, a: nat, n: nat)
    requires Trial(ss, es, a, n)
    ensures PhaseTells(ss, es, a, n)
  {
    if n > a + 1 {
      PhaseMeans(ss, es, a, n - 1);
      PhaseTellsNext(ss, es, a, n - 1);
    }
  }

  /**
    The environment guard over every run: it accepts if and only if, since the trial was opened,
    no boot rolled back and no boot followed a local commit.
   */
  lemma AcceptsIff(ss: seq<State>, es: seq<Event>, a: nat, n: nat)
    requires Trial(ss, es, a, n)
    ensures Accepts(ss[n].env) <==> !RolledBackIn(ss, es, a, n) && !RebootedSinceCommit(es, a, n)
  {
    PhaseHolds(ss, es, a, n);
    PhaseMeans(ss, es, a, n);
  }

  /** The slot that runs: the trial's, until a rollback, and then the other one. */
  lemma {:induction false} RunningSlot(ss: seq<State>, es: seq<Event>, a: nat, n: nat)
    requires Trial(ss, es, a, n)
    ensures var slot := if RolledBackIn(ss, es, a, n) then Other(es[a].target) else es[a].target;
            ss[n].env.part == slot && (BootedIn(es, a, n) ==> ss[n].running == slot)
  {
    assert StepAt(ss, es, n - 1);
    if n > a + 1 {
      RunningSlot(ss, es, a, n - 1);
      PhaseHolds(ss, es, a, n - 1);
      PhaseMeans(ss, es, a, n - 1);
      RolledBackNext(ss, es, a, n - 1);
      BootedNext(es, a, n - 1);
      assert !PendsAt(es, n - 1);
    }
  }

  // --- after a rollback ---------------------------------------------------------------------------

  lemma {:induction false} StaysRefused(ss: seq<State>, es: seq<Event>, k: nat, n: nat)
    requires IsRun(ss, es) && RollsBackAt(ss, es, k) && k < n <= |es|
    requires forall j :: k < j < n ==> !PendsAt(es, j)
    ensures PhaseEnv(Closed, ss[n])
  {
    assert StepAt(ss, es, n - 1);
    if n > k + 1 {
      StaysRefused(ss, es, k, n - 1);
      assert !PendsAt(es, n - 1);
      PhaseStep(Closed, ss[n - 1], es[n - 1]);
    }
  }

  /** No commit follows a rollback before a new trial is opened, whatever versions the slots carry. */
  lemma NoCommitAfterRollback(ss: seq<State>, es: seq<Event>, k: nat, m: nat)
    requires IsRun(ss, es) && RollsBackAt(ss, es, k) && k < m < |es| && es[m].Commit?
    ensures exists j :: k < j < m && PendsAt(es, j)
  {
    assert StepAt(ss, es, m);
    if forall j :: k < j < m ==> !PendsAt(es, j) {
      StaysRefused(ss, es, k, m);
      assert false;
    }
  }

  /** A commit on a slot that booted since its trial was opened is a commit of that slot. */
  lemma CommitsTrialSlot(ss: seq<State>, es: seq<Event>, a: nat, m: nat)
    requires Trial(ss, es, a, m) && m < |es| && es[m].Commit? && BootedIn(es, a, m)
    ensures ss[m].running == es[a].target
  {
    assert StepAt(ss, es, m);
    PhaseHolds(ss, es, a, m);
    PhaseMeans(ss, es, a, m);
    RunningSlot(ss, es, a, m);
  }

  // --- arming the rollback -------------------------------------------------------------------------

  /** The counter of an open trial is one digit and not over the limit. */
  predicate CountInTrial(env: Env) {
    |env.count| == 1 && IsDec(env.count[0]) && Value(env.count[0]) <= Limit(env)
  }

  lemma CountBelow(env: Env)
    requires ArmableLimit(env) && CountInTrial(env)
    ensures !AtLeast(env.count, Limit(env) + 1)
  {
    OneDigit(env.count);
  }

  lemma CountStep(s: State, e: Event)
    requires Enabled(s, e) && ArmableLimit(s.env) && CountInTrial(s.env) && s.env.upgrade == "1"
    requires !s.loader.NoLoader? && (e.Pend? ==> e.w == Lost(false))
    requires !(e == PowerOn && RollsBack(s.loader, s.env)) && !(e.Commit? && e.w != Lost(false))
    ensures CountInTrial(Step(s, e).env)
  {
    if e == PowerOn {
      var j := Value(s.env.count[0]);
      assert s.env.count == [Digit(j)];
      BumpedDigit(s.loader, j);
    }
  }

  lemma {:induction false} LimitStays(ss: seq<State>, es: seq<Event>, n: nat)
    requires IsRun(ss, es) && n <= |es|
    ensures ss[n].env.limit == ss[0].env.limit && ss[n].loader == ss[0].loader
  {
    if n > 0 {
      LimitStays(ss, es, n - 1);
      assert StepAt(ss, es, n - 1);
    }
  }

  /** In every run, an open trial's counter has not passed an armable limit. */
  lemma {:induction false} OpenCount(ss: seq<State>, es: seq<Event>, a: nat, n: nat)
    requires Trial(ss, es, a, n) && ArmableLimit(ss[0].env) && PhaseAt(ss, es, a, n) == Open
    ensures ArmableLimit(ss[n].env) && CountInTrial(ss[n].env) && ss[n].env.upgrade == "1"
  {
    LimitStays(ss, es, n);
    LimitStays(ss, es, n - 1);
    PhaseHolds(ss, es, a, n);
    assert StepAt(ss, es, n - 1);
    if n > a + 1 {
      assert !PendsAt(es, n - 1);
      PhaseHolds(ss, es, a, n - 1);
      OpenCount(ss, es, a, n - 1);
      CountStep(ss[n - 1], es[n - 1]);
    }
  }

  ghost predicate ArmsAt(ss: seq<State>, es: seq<Event>, n: nat)
    requires |ss| == |es| + 1
  {
    n < |es| && es[n].Arm? && ArmTrial(ss[n].loader, ss[n].env, es[n].listed, es[n].w).1
  }

  lemma {:induction false} StaysArmed(ss: seq<State>, es: seq<Event>, a: nat, n: nat, m: nat)
    requires Trial(ss, es, a, m) && ArmableLimit(ss[0].env) && ArmsAt(ss, es, n) && a < n < m
    requires forall k :: n < k < m ==> !CommitsAt(es, k) && es[k] != PowerOn
    ensures Armed(ss[m].env)
  {
    assert StepAt(ss, es, m - 1);
    if m == n + 1 {
      PhaseHolds(ss, es, a, n);
      OpenCount(ss, es, a, n);
      CountBelow(ss[n].env);
      ArmedEnv(ss[n].loader, ss[n].env, es[n].listed, es[n].w);
    } else {
      StaysArmed(ss, es, a, n, m - 1);
      assert !PendsAt(es, m - 1) && !CommitsAt(es, m - 1);
    }
  }

  /** In every run, an armed rollback is taken by the very next boot, whichever script runs it. */
  lemma ArmedBootRollsBack(ss: seq<State>, es: seq<Event>, a: nat, n: nat, m: nat)
    requires Trial(ss, es, a, m) && ArmableLimit(ss[0].env) && ArmsAt(ss, es, n) && a < n < m < |es|
    requires es[m] == PowerOn && forall k :: n < k < m ==> !CommitsAt(es, k) && es[k] != PowerOn
    ensures RollsBackAt(ss, es, m) && ss[m + 1].running == Other(es[a].target)
  {
    StaysArmed(ss, es, a, n, m);
    ArmedIsDue(ss[m].env);
    LimitStays(ss, es, m);
    assert StepAt(ss, es, m);
    PhaseHolds(ss, es, a, m);
    PhaseMeans(ss, es, a, m);
    RunningSlot(ss, es, a, m);
  }

  /**
    Every commit and every armed rollback directly follows its own checks, and those a read of the environment that
    was trusted: a reboot or a restart in between forgets the decision.
   */
  lemma DecisionIsFresh(ss: seq<State>, es: seq<Event>, n: nat)
    requires IsRun(ss, es) && n < |es| && (es[n].Commit? || es[n].Arm?)
    ensures n >= 2 && es[n - 2] == Read(true) && Accepts(ss[n - 2].env) && ss[n].env == ss[n - 2].env
    ensures es[n].Commit? ==> es[n - 1].Check? && es[n - 1].passed
    ensures es[n].Arm? ==> es[n - 1] == Check(false, true) && ss[n].env.upgrade == "1"
  {
    assert StepAt(ss, es, n);
    assert n >= 1 && StepAt(ss, es, n - 1);
    assert n >= 2 && StepAt(ss, es, n - 2);
  }
}

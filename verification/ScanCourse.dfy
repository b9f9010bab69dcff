/**
  The course of a visit: which body the scan task runs next, and what ends a visit or a scan, over
  every run.
 */
module ScanCourse {
  import opened Options
  import opened ScanList
  import opened ScanSystem
  import opened ScanSafety
  import opened ScanTheorems
  import opened ScanVisits
  import B = PttBroker

  /** At `k` the task `t` ends the body `work` of a visit to `x` that no hold has outdated. */
  ghost predicate EndsBody(ss: seq<Sys>, es: seq<Event>, k: nat, t: nat, work: Work, x: Entry)
    requires |ss| == |es| + 1
  {
    && k < |es| && es[k].RunnerGo? && es[k].task == t
    && t in ss[k].runners && ss[k].runners[t] == Body(work, x)
    && !ss[k].sc.held && !ss[k].sc.stopping && ss[k].sc.visitGen == ss[k].sc.holdGen
  }

  ghost predicate Starts(s: Sys, s': Sys, t: nat) {
    t in s.runners && s.runners[t].Wait? && t in s'.runners && s'.runners[t].Body?
  }

  /** The body that starts at `m` is the next one of `t` after `k`, and no hold came in between. */
  ghost predicate NextBody(ss: seq<Sys>, es: seq<Event>, k: nat, m: nat, t: nat)
    requires |ss| == |es| + 1
  {
    && k < m < |es| && Starts(ss[m], ss[m + 1], t)
    && (forall j :: k < j < m ==> !Starts(ss[j], ss[j + 1], t))
    && (forall j :: k < j <= m ==> !ss[j].sc.held)
  }

  /** A skip was noted at some await from `k` to `m`. */
  ghost predicate SkipNoted(ss: seq<Sys>, k: nat, m: nat) {
    exists j :: k <= j <= m && j < |ss| && ss[j].sc.skip
  }

  // --- where the task is heading --------------------------------------------------------------------

  ghost predicate Free(s: Sys, t: nat) {
    s.sc.task == Some(t) && t in s.runners && !s.sc.held && !s.sc.stopping
  }

  /** Inside its visit to `x`, on the way to the body `work`. */
  ghost predicate Heading(s: Sys, t: nat, work: Work, x: Entry) {
    && Free(s, t) && s.sc.visitGen == s.sc.holdGen
    && (s.runners[t] == Wait(work, x) || (s.runners[t] == Sleep(work, x) && (work.Listen? || work.Poll?)))
  }

  /** On the way to a new visit. */
  ghost predicate Turning(s: Sys, t: nat) {
    && Free(s, t)
    && (s.runners[t].Top? || (s.runners[t].Wait? && s.runners[t].work.Scanning? && s.sc.visitGen == s.sc.holdGen))
  }

  lemma OtherEvent(s: Sys, e: Event, t: nat)
    requires Inv(s) && Enabled(s, e) && Free(s, t) && !(e.RunnerGo? && e.task == t) && !Step(s, e).sc.held
    ensures var s' := Step(s, e);
            || (Over(s', t) && !Starts(s, s', t))
            || (&& Free(s', t) && s'.runners[t] == s.runners[t] && (s.sc.skip ==> s'.sc.skip)
                && s'.sc.visitGen == s.sc.visitGen && s'.sc.holdGen == s.sc.holdGen)
  {
    match e
    case RunnerGo(u, _) => assert s.runners[u].Sending?;
    case HandlerGo(_, _) => assert !Holding(s.handler) && !s.handler.StopSend?;
    case _ =>
  }

  lemma LeaveVisitTurns(s: Sys, t: nat, reachable: bool)
    requires t < s.started && s.sc.task == Some(t) && !s.sc.held && !s.sc.stopping
    ensures var s' := LeaveVisit(s, t, reachable); Turning(s', t) || Over(s', t)
    ensures InRange(s.sc.list) && reachable ==> Turning(LeaveVisit(s, t, reachable), t)
  {
  }

  lemma HeadingTurn(s: Sys, t: nat, c: Choice, work: Work, x: Entry)
    requires Inv(s) && Heading(s, t, work, x) && Enabled(s, RunnerGo(t, c))
    ensures var s' := RunnerStep(s, t, c);
            if Starts(s, s', t) then s'.runners[t] == Body(work, x)
            else || (Heading(s', t, work, x) && (s.runners[t].Wait? ==> s'.runners[t].Wait?)) || Over(s', t)
                 || (Turning(s', t) && s.runners[t] == Sleep(Listen, x) && s.sc.skip)
    ensures s.runners[t] == Sleep(Listen, x) && s.sc.skip && Heading(RunnerStep(s, t, c), t, work, x) ==>
              RunnerStep(s, t, c).runners[t] == Sleep(Listen, x) && RunnerStep(s, t, c).sc.skip
  {
    if s.runners[t].Sleep? {
      LeaveVisitTurns(s, t, true);
    }
  }

  lemma TurningTurn(s: Sys, t: nat, c: Choice)
    requires Inv(s) && Turning(s, t) && Enabled(s, RunnerGo(t, c)) && !RunnerStep(s, t, c).sc.held
    ensures var s' := RunnerStep(s, t, c);
            if Starts(s, s', t) then s'.runners[t].work == Scanning else Turning(s', t) || Over(s', t)
  {
  }

  lemma OverStarts(s: Sys, e: Event, t: nat)
    requires Inv(s) && Enabled(s, e) && Over(s, t)
    ensures !Starts(s, Step(s, e), t)
  {
    if e.RunnerGo? && e.task != t && !s.runners[e.task].Sending? && !ParksItself(s, e.task) {
      TaskStep(s, e.task, e.choice);
    }
  }

  lemma HeadingStep(s: Sys, e: Event, t: nat, work: Work, x: Entry)
    requires Inv(s) && Enabled(s, e) && Heading(s, t, work, x) && !Step(s, e).sc.held
    ensures var s' := Step(s, e);
            if Starts(s, s', t) then s'.runners[t] == Body(work, x)
            else || (Heading(s', t, work, x) && (s.runners[t].Wait? ==> s'.runners[t].Wait?)) || Over(s', t)
                 || (Turning(s', t) && s.runners[t] == Sleep(Listen, x) && s.sc.skip)
    ensures s.runners[t] == Sleep(Listen, x) && s.sc.skip && Heading(Step(s, e), t, work, x) ==>
              Step(s, e).runners[t] == Sleep(Listen, x) && Step(s, e).sc.skip
  {
    if e.RunnerGo? && e.task == t {
      HeadingTurn(s, t, e.choice, work, x);
    } else {
      OtherEvent(s, e, t);
    }
  }

  lemma TurningStep(s: Sys, e: Event, t: nat)
    requires Inv(s) && Enabled(s, e) && Turning(s, t) && !Step(s, e).sc.held
    ensures var s' := Step(s, e);
            if Starts(s, s', t) then s'.runners[t].work == Scanning else Turning(s', t) || Over(s', t)
  {
    if e.RunnerGo? && e.task == t {
      TurningTurn(s, t, e.choice);
    } else {
      OtherEvent(s, e, t);
    }
  }

  lemma {:induction false} OverUntil(ss: seq<Sys>, es: seq<Event>, k: nat, m: nat, t: nat)
    requires IsRun(ss, es) && k <= m < |ss| && Over(ss[k], t)
    ensures Over(ss[m], t)
  {
    if k < m {
      OverUntil(ss, es, k, m - 1, t);
      RunKeepsInv(ss, es, m - 1);
      assert StepAt(ss, es, m - 1);
      OverStep(ss[m - 1], es[m - 1], t);
    }
  }

  lemma NoneAfterOver(ss: seq<Sys>, es: seq<Event>, k: nat, m: nat, t: nat)
    requires IsRun(ss, es) && k <= m < |es| && Over(ss[k], t)
    ensures !Starts(ss[m], ss[m + 1], t)
  {
    OverUntil(ss, es, k, m, t);
    RunKeepsInv(ss, es, m);
    assert StepAt(ss, es, m);
    OverStarts(ss[m], es[m], t);
  }

  /** From `i` on no body of `t` starts before `m`, and no hold comes. */
  ghost predicate Calm(ss: seq<Sys>, es: seq<Event>, i: nat, m: nat, t: nat)
    requires |ss| == |es| + 1
  {
    && i <= m < |es|
    && (forall j :: i <= j < m ==> !Starts(ss[j], ss[j + 1], t))
    && (forall j :: i <= j <= m ==> !ss[j].sc.held)
  }

  lemma {:induction false} TurningUntil(ss: seq<Sys>, es: seq<Event>, i: nat, m: nat, t: nat)
    requires IsRun(ss, es) && Calm(ss, es, i, m, t) && Turning(ss[i], t) && Starts(ss[m], ss[m + 1], t)
    ensures ss[m + 1].runners[t].work == Scanning
    decreases m - i
  {
    RunKeepsInv(ss, es, i);
    assert StepAt(ss, es, i);
    if i == m {
      StartKeepsHeld(ss, es, m, t);
      TurningStep(ss[m], es[m], t);
    } else {
      TurningStep(ss[i], es[i], t);
      if Over(ss[i + 1], t) {
        NoneAfterOver(ss, es, i + 1, m, t);
        assert false;
      } else {
        TurningUntil(ss, es, i + 1, m, t);
      }
    }
  }

  lemma StartKeepsHeld(ss: seq<Sys>, es: seq<Event>, m: nat, t: nat)
    requires IsRun(ss, es) && m < |es| && Starts(ss[m], ss[m + 1], t) && !ss[m].sc.held
    ensures !ss[m + 1].sc.held
  {
    RunKeepsInv(ss, es, m);
    assert StepAt(ss, es, m);
    OnlyOwnTurnMoves(ss[m], es[m], t);
  }

  lemma {:induction false} HeadingUntil(ss: seq<Sys>, es: seq<Event>, i: nat, m: nat, t: nat, work: Work, x: Entry)
    requires IsRun(ss, es) && Calm(ss, es, i, m, t) && Heading(ss[i], t, work, x) && Starts(ss[m], ss[m + 1], t)
    ensures || ss[m + 1].runners[t] == Body(work, x)
            || (ss[i].runners[t] == Sleep(Listen, x) && ss[m + 1].runners[t].work == Scanning && SkipNoted(ss, i, m))
    ensures ss[i].runners[t] == Sleep(Listen, x) && ss[i].sc.skip ==> ss[m + 1].runners[t].work == Scanning
    decreases m - i
  {
    RunKeepsInv(ss, es, i);
    assert StepAt(ss, es, i);
    if i == m {
      StartKeepsHeld(ss, es, m, t);
      HeadingStep(ss[m], es[m], t, work, x);
    } else {
      HeadingStep(ss[i], es[i], t, work, x);
      if Over(ss[i + 1], t) {
        NoneAfterOver(ss, es, i + 1, m, t);
        assert false;
      } else if Heading(ss[i + 1], t, work, x) {
        HeadingUntil(ss, es, i + 1, m, t, work, x);
      } else {
        TurningUntil(ss, es, i + 1, m, t);
      }
    }
  }

  // --- after each body ------------------------------------------------------------------------------------

  predicate Stops(c: Choice) {
    c.outcome.Updating? || c.outcome.Raised?
  }

  predicate NoCarrierRead(c: Choice) {
    !c.outcome.CarrierOn? && !c.outcome.CarrierOff?
  }

  /** A body of the visit has just ended and the task is not held. */
  ghost predicate Ended(s: Sys, t: nat, work: Work, x: Entry) {
    && Inv(s) && Free(s, t) && s.sc.visitGen == s.sc.holdGen && s.runners[t] == Body(work, x)
  }

  lemma AfterPreparing(s: Sys, t: nat, c: Choice, work: Work, x: Entry)
    requires Ended(s, t, work, x) && (work.Scanning? || work.Apply?)
    ensures var s' := RunnerStep(s, t, c);
            if work.Scanning? then Heading(s', t, Apply, x)
            else if c.outcome.Good? && !s.sc.skip then Heading(s', t, Listen, x) && s'.runners[t].Wait?
            else Turning(s', t) || Over(s', t)
  {
    var free := s.(lock := None);
    var tuned := free.(sc := s.sc.(tuned := if c.outcome.Good? then Some(x.ref) else None));
    LeaveVisitTurns(tuned, t, c.outcome.Good?);
  }

  lemma AfterListening(s: Sys, t: nat, c: Choice, x: Entry)
    requires Ended(s, t, Listen, x)
    ensures var s' := RunnerStep(s, t, c);
            && (s'.sc.held <==> c.outcome.CarrierOn? && B.PttActive(s.br))
            && (c.outcome.CarrierOn? && !B.PttActive(s.br) ==> Heading(s', t, RouteTx, x) && s'.runners[t].Wait?)
            && (c.outcome.CarrierOff? && !c.due ==>
                  Heading(s', t, Listen, x) && s'.runners[t].Sleep? && s'.sc.skip == s.sc.skip)
            && (NoCarrierRead(c) || (c.outcome.CarrierOff? && c.due) ==> Turning(s', t) || Over(s', t))
  {
    LeaveVisitTurns(s.(lock := None), t, c.outcome.CarrierOff?);
  }

  /** This carrier read, or the skip noted before it, ends a visit that had found a carrier. */
  predicate LeavesCarrier(work: Work, c: Choice, skip: bool) {
    match work
    case Announce(_) => skip
    case Poll(hang) =>
      || Stops(c) || NoCarrierRead(c) || (hang && c.outcome.CarrierOff? && c.due)
      || (skip && c.outcome.CarrierOn? != hang)
    case _ => false
  }

  /** What else comes next: the carrier dropping and coming back are announced, and then it is read again. */
  function AfterCarrier(work: Work, c: Choice): Work {
    match work
    case Announce(hang) => Poll(hang)
    case Poll(hang) => if c.outcome.CarrierOn? == hang then Announce(!hang) else Poll(hang)
    case _ => Announce(false)
  }

  lemma AfterActive(s: Sys, t: nat, c: Choice, work: Work, x: Entry)
    requires Ended(s, t, work, x) && (work.RouteTx? || work.Announce? || work.Poll?)
    ensures var s' := RunnerStep(s, t, c);
            && !s'.sc.held && (work.RouteTx? ==> s'.sc.routed == Some(x.ref))
            && if LeavesCarrier(work, c, s.sc.skip) then Turning(s', t) || Over(s', t)
               else Heading(s', t, AfterCarrier(work, c), x)
  {
    LeaveVisitTurns(s.(lock := None), t, true);
    LeaveVisitTurns(s.(lock := None), t, false);
  }

  // --- over runs ---------------------------------------------------------------------------------------

  lemma EndedHere(ss: seq<Sys>, es: seq<Event>, k: nat, t: nat, work: Work, x: Entry)
    requires IsRun(ss, es) && EndsBody(ss, es, k, t, work, x)
    ensures Ended(ss[k], t, work, x) && ss[k + 1] == RunnerStep(ss[k], t, es[k].choice)
  {
    RunKeepsInv(ss, es, k);
    assert StepAt(ss, es, k);
  }

  lemma ThenTurns(ss: seq<Sys>, es: seq<Event>, k: nat, m: nat, t: nat)
    requires IsRun(ss, es) && NextBody(ss, es, k, m, t) && (Turning(ss[k + 1], t) || Over(ss[k + 1], t))
    ensures ss[m + 1].runners[t].work == Scanning
  {
    if Over(ss[k + 1], t) {
      NoneAfterOver(ss, es, k + 1, m, t);
      assert false;
    } else {
      TurningUntil(ss, es, k + 1, m, t);
    }
  }

  /** A visit is announced, then its entry applied; a good apply is listened to, unless a skip was noted. */
  lemma VisitPrepares(ss: seq<Sys>, es: seq<Event>, k: nat, m: nat, t: nat, work: Work, x: Entry)
    requires IsRun(ss, es) && EndsBody(ss, es, k, t, work, x) && NextBody(ss, es, k, m, t)
    requires work.Scanning? || work.Apply?
    ensures work.Scanning? ==> ss[m + 1].runners[t] == Body(Apply, x)
    ensures work.Apply? ==>
              if es[k].choice.outcome.Good? && !ss[k].sc.skip then ss[m + 1].runners[t] == Body(Listen, x)
              else ss[m + 1].runners[t].work == Scanning
  {
    EndedHere(ss, es, k, t, work, x);
    AfterPreparing(ss[k], t, es[k].choice, work, x);
    if work.Scanning? {
      HeadingUntil(ss, es, k + 1, m, t, Apply, x);
    } else if es[k].choice.outcome.Good? && !ss[k].sc.skip {
      HeadingUntil(ss, es, k + 1, m, t, Listen, x);
    } else {
      ThenTurns(ss, es, k, m, t);
    }
  }

  /**
    A carrier that is heard is routed to: with nothing keyed the visit goes on, and the next body of the task
    is the route to that entry.  With a key live the task holds itself instead.
   */
  lemma CarrierIsRouted(ss: seq<Sys>, es: seq<Event>, k: nat, m: nat, t: nat, x: Entry)
    requires IsRun(ss, es) && EndsBody(ss, es, k, t, Listen, x) && es[k].choice.outcome.CarrierOn?
    ensures ss[k + 1].sc.held <==> B.PttActive(ss[k].br)
    ensures !B.PttActive(ss[k].br) ==> ss[k + 1].runners == ss[k].runners[t := Wait(RouteTx, x)]
    ensures NextBody(ss, es, k, m, t) ==> ss[m + 1].runners[t] == Body(RouteTx, x)
  {
    EndedHere(ss, es, k, t, Listen, x);
    AfterListening(ss[k], t, es[k].choice, x);
    if NextBody(ss, es, k, m, t) {
      assert !ss[k + 1].sc.held;
      HeadingUntil(ss, es, k + 1, m, t, RouteTx, x);
    }
  }

  /**
    Without a carrier the listen window goes on until it is due, unless a skip was noted; a read that fails or
    a window that is due ends the visit.
   */
  lemma SilenceIsListenedTo(ss: seq<Sys>, es: seq<Event>, k: nat, m: nat, t: nat, x: Entry)
    requires IsRun(ss, es) && EndsBody(ss, es, k, t, Listen, x) && NextBody(ss, es, k, m, t)
    requires !es[k].choice.outcome.CarrierOn?
    ensures var c, r := es[k].choice, ss[m + 1].runners[t];
            if c.outcome.CarrierOff? && !c.due then
              && (r == Body(Listen, x) || (r.work == Scanning && SkipNoted(ss, k + 1, m)))
              && (ss[k].sc.skip ==> r.work == Scanning)
            else r.work == Scanning
  {
    EndedHere(ss, es, k, t, Listen, x);
    AfterListening(ss[k], t, es[k].choice, x);
    if es[k].choice.outcome.CarrierOff? && !es[k].choice.due {
      HeadingUntil(ss, es, k + 1, m, t, Listen, x);
    } else {
      ThenTurns(ss, es, k, m, t);
    }
  }

  /**
    A visit that found a carrier has tx_route on its entry once the route's body is over.  It announces that the
    carrier dropped or came back and reads it again, of the same entry, and goes to another entry if and
    only if a skip was noted, a read failed, or the carrier stayed away for the hang time.
   */
  lemma CarrierIsFollowed(ss: seq<Sys>, es: seq<Event>, k: nat, m: nat, t: nat, work: Work, x: Entry)
    requires IsRun(ss, es) && EndsBody(ss, es, k, t, work, x)
    requires work.RouteTx? || work.Announce? || work.Poll?
    ensures work.RouteTx? ==> ss[k + 1].sc.routed == Some(x.ref)
    ensures NextBody(ss, es, k, m, t) ==>
              if LeavesCarrier(work, es[k].choice, ss[k].sc.skip) then ss[m + 1].runners[t].work == Scanning
              else ss[m + 1].runners[t] == Body(AfterCarrier(work, es[k].choice), x)
  {
    EndedHere(ss, es, k, t, work, x);
    AfterActive(ss[k], t, es[k].choice, work, x);
    if NextBody(ss, es, k, m, t) {
      if LeavesCarrier(work, es[k].choice, ss[k].sc.skip) {
        ThenTurns(ss, es, k, m, t);
      } else {
        HeadingUntil(ss, es, k + 1, m, t, AfterCarrier(work, es[k].choice), x);
      }
    }
  }

  // --- when a scan ends or holds itself ---------------------------------------------------------------------

  /** This turn of the task ends its scan. */
  ghost predicate EndsScan(s: Sys, t: nat, c: Choice)
    requires t in s.runners
  {
    match s.runners[t]
    case Top => s.sc.held && !s.sc.resume && c.drained
    case Parked => !s.sc.resume && c.drained
    case Wait(_, _) => !s.sc.held && s.sc.visitGen == s.sc.holdGen && c.drained
    case Body(work, _) =>
      || ((work.Apply? || work.Listen? || work.Poll?) && Stops(c))
      || (Unreachable(s.runners[t], c) && |s.sc.list.entries| <= s.sc.list.failStreak + 1)
    case HoldEmit(pos) => pos.Some? && s.sc.routed != s.sc.tuned && |s.sc.list.entries| <= pos.value
    case _ => false
  }

  lemma LeaveVisitEnds(s: Sys, t: nat, reachable: bool)
    requires s.sc.task == Some(t) && !s.sc.stopping && InRange(s.sc.list)
    ensures LeaveVisit(s, t, reachable).sc.task.None? <==> !reachable && |s.sc.list.entries| <= s.sc.list.failStreak + 1
  {
  }

  lemma ApplyEndsScan(s: Sys, t: nat, x: Entry, c: Choice)
    requires s.sc.task == Some(t) && !s.sc.stopping && InRange(s.sc.list)
    ensures LeaveBody(s, t, Apply, x, c).sc.task.None? <==>
            Stops(c) || (!c.outcome.Good? && |s.sc.list.entries| <= s.sc.list.failStreak + 1)
  {
    var tuned := s.(sc := s.sc.(tuned := if c.outcome.Good? then Some(x.ref) else None));
    LeaveVisitEnds(tuned, t, c.outcome.Good?);
  }

  lemma ReadEndsScan(s: Sys, t: nat, work: Work, x: Entry, c: Choice)
    requires s.sc.task == Some(t) && !s.sc.stopping && InRange(s.sc.list) && (work.Listen? || work.Poll?)
    ensures LeaveBody(s, t, work, x, c).sc.task.None? <==>
            Stops(c) || (NoCarrierRead(c) && |s.sc.list.entries| <= s.sc.list.failStreak + 1)
  {
    LeaveVisitEnds(s, t, !NoCarrierRead(c));
  }

  lemma BodyEndsScan(s: Sys, t: nat, c: Choice)
    requires Inv(s) && Enabled(s, RunnerGo(t, c)) && s.sc.task == Some(t) && !s.sc.stopping && s.runners[t].Body?
    ensures RunnerStep(s, t, c).sc.task.None? <==> EndsScan(s, t, c)
  {
    var free, work, x := s.(lock := None), s.runners[t].work, s.runners[t].entry;
    match work
    case Apply => ApplyEndsScan(free, t, x, c);
    case Announce(_) => LeaveVisitEnds(free, t, true);
    case Scanning =>
    case RouteTx =>
    case _ => ReadEndsScan(free, t, work, x, c);
  }

  /**
    A scan ends by its own task if and only if a slot is drained, an entry is updating, a step or the lookup
    in its own hold raises, or a whole pass failed.
   */
  lemma ScanEndsIff(ss: seq<Sys>, es: seq<Event>, k: nat, t: nat)
    requires IsRun(ss, es) && k < |es| && es[k].RunnerGo? && es[k].task == t
    requires ss[k].sc.task == Some(t) && !ss[k].sc.stopping
    ensures t in ss[k].runners && (ss[k + 1].sc.task.None? <==> EndsScan(ss[k], t, es[k].choice))
  {
    RunKeepsInv(ss, es, k);
    assert StepAt(ss, es, k);
    var s, c := ss[k], es[k].choice;
    match s.runners[t]
    case Body(_, _) => BodyEndsScan(s, t, c);
    case Sleep(_, _) => LeaveVisitEnds(s, t, true);
    case _ => OutsideEndsScan(s, t, c);
  }

  lemma OutsideEndsScan(s: Sys, t: nat, c: Choice)
    requires Inv(s) && Enabled(s, RunnerGo(t, c)) && s.sc.task == Some(t) && !s.sc.stopping
    requires !s.runners[t].Body? && !s.runners[t].Sleep?
    ensures RunnerStep(s, t, c).sc.task.None? <==> EndsScan(s, t, c)
  {
  }

  /** The task holds its scan if and only if it is about to visit or to route and a key is live. */
  lemma TaskHoldsIff(ss: seq<Sys>, es: seq<Event>, k: nat, t: nat)
    requires IsRun(ss, es) && k < |es| && es[k].RunnerGo? && es[k].task == t && t in ss[k].runners
    ensures SetsHeld(ss[k], ss[k + 1]) <==>
            && ss[k].sc.task == Some(t) && !ss[k].sc.held && !ss[k].sc.stopping && B.PttActive(ss[k].br)
            && (ss[k].runners[t].Top?
                || (ss[k].runners[t].Body? && ss[k].runners[t].work.Listen? && es[k].choice.outcome.CarrierOn?))
  {
    RunKeepsInv(ss, es, k);
    assert StepAt(ss, es, k);
    var s, c := ss[k], es[k].choice;
    if s.runners[t].Body? {
      BodyHolds(s.(lock := None), t, s.runners[t].work, s.runners[t].entry, c);
    }
  }

  lemma BodyHolds(s: Sys, t: nat, work: Work, x: Entry, c: Choice)
    requires InRange(s.sc.list) && s.sc.task == Some(t)
    ensures SetsHeld(s, LeaveBody(s, t, work, x, c)) <==>
            && !s.sc.held && !s.sc.stopping && B.PttActive(s.br) && work.Listen? && c.outcome.CarrierOn?
  {
  }

  // --- skips -------------------------------------------------------------------------------------------------

  lemma SkipTurn(s: Sys, t: nat, c: Choice)
    requires Inv(s) && Enabled(s, RunnerGo(t, c))
    ensures RunnerStep(s, t, c).sc.skip ==> s.sc.skip && !StartsVisit(s, RunnerStep(s, t, c), t)
  {
    if s.runners[t].Body? {
      SkipBody(s.(lock := None), t, s.runners[t].work, s.runners[t].entry, c);
    }
  }

  lemma SkipBody(s: Sys, t: nat, work: Work, x: Entry, c: Choice)
    ensures LeaveBody(s, t, work, x, c).sc.skip ==> s.sc.skip
  {
  }

  lemma SkipStep(s: Sys, e: Event)
    requires Inv(s) && Enabled(s, e) && Step(s, e).sc.skip
    ensures e.SkipMsg? || (s.sc.skip && (e.RunnerGo? ==> !StartsVisit(s, Step(s, e), e.task)))
  {
    if e.RunnerGo? {
      SkipTurn(s, e.task, e.choice);
    }
  }

  /** A skip that is noted was asked for since the last visit began. */
  lemma {:induction false} SkipWasAsked(ss: seq<Sys>, es: seq<Event>, n: nat) returns (j: nat)
    requires IsRun(ss, es) && n <= |es| && ss[n].sc.skip
    ensures j < n && es[j].SkipMsg?
    ensures forall i, t :: j < i < n ==> !FreshVisitAt(ss, es, t, i)
  {
    RunKeepsInv(ss, es, n - 1);
    assert StepAt(ss, es, n - 1);
    SkipStep(ss[n - 1], es[n - 1]);
    if es[n - 1].SkipMsg? {
      j := n - 1;
    } else {
      j := SkipWasAsked(ss, es, n - 1);
    }
  }
}

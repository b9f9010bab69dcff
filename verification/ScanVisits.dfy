/** The visits of a running scan, over every run in which it is neither held nor given a new list. */
module ScanVisits {
  import opened Options
  import opened ScanList
  import opened ScanSystem
  import opened ScanSafety
  import opened ScanTheorems
  import B = PttBroker

  /** From `i` to `k` no hold is set and no list update arrives. */
  ghost predicate Quiet(ss: seq<Sys>, es: seq<Event>, i: nat, k: nat)
    requires |ss| == |es| + 1 && k <= |es|
  {
    forall m :: i <= m < k ==> !SetsHeld(ss[m], ss[m + 1]) && !es[m].Update?
  }

  /** This turn ends the visit because its entry could not be applied or read. */
  predicate Unreachable(r: Runner, c: Choice) {
    r.Body? &&
    match r.work
    case Apply => !c.outcome.Good? && !c.outcome.Updating? && !c.outcome.Raised?
    case Listen => !c.outcome.CarrierOn? && !c.outcome.CarrierOff? && !c.outcome.Updating? && !c.outcome.Raised?
    case Poll(_) => !c.outcome.CarrierOn? && !c.outcome.CarrierOff? && !c.outcome.Updating? && !c.outcome.Raised?
    case _ => false
  }

  ghost predicate Visiting(s: Sys, t: nat) {
    t in s.runners && InVisit(s.runners[t])
  }

  /** At `k` a visit of `t` ends. */
  ghost predicate EndsAt(ss: seq<Sys>, es: seq<Event>, t: nat, k: nat)
    requires |ss| == |es| + 1 && k < |es|
  {
    es[k].RunnerGo? && es[k].task == t && Visiting(ss[k], t) && !Visiting(ss[k + 1], t)
  }

  ghost predicate FailsAt(ss: seq<Sys>, es: seq<Event>, t: nat, k: nat)
    requires |ss| == |es| + 1 && k < |es|
  {
    EndsAt(ss, es, t, k) && Unreachable(ss[k].runners[t], es[k].choice)
  }

  // --- one step ------------------------------------------------------------------------------------

  /** The scan of `t` is on its way at `list`: between visits, or inside a visit that no hold outdated. */
  ghost predicate Going(s: Sys, t: nat, list: Cursor) {
    && s.sc.task == Some(t) && t in s.runners && !s.sc.stopping && !s.sc.held && s.sc.list == list
    && list.pending.None? && InRange(list) && list.failStreak < |list.entries|
    && (s.runners[t].Top? || (InVisit(s.runners[t]) && s.sc.visitGen == s.sc.holdGen))
  }

  ghost predicate Over(s: Sys, t: nat) {
    t < s.started && (s.sc.task != Some(t) || s.sc.stopping)
  }

  /** The cursor after a visit that ended there, for good or not. */
  function Moved(list: Cursor, failed: bool): Cursor
    requires InRange(list)
  {
    Cursor(list.entries, None, Wrap(list.index + 1, |list.entries|), if failed then list.failStreak + 1 else 0)
  }

  /** What a turn inside a visit comes to: the scan ends, the visit goes on, or it ends and moves on. */
  ghost predicate VisitTurn(s': Sys, t: nat, list: Cursor, failed: bool)
    requires InRange(list)
  {
    || Over(s', t)
    || (!failed && Going(s', t, list) && InVisit(s'.runners[t]))
    || (Going(s', t, Moved(list, failed)) && s'.runners[t].Top?)
  }

  lemma LeaveVisitMoves(s: Sys, t: nat, reachable: bool)
    requires t < s.started && s.sc.task == Some(t) && !s.sc.stopping && !s.sc.held
    requires InRange(s.sc.list) && s.sc.list.pending.None? && s.sc.list.failStreak < |s.sc.list.entries|
    ensures var s' := LeaveVisit(s, t, reachable);
            if !reachable && |s.sc.list.entries| <= s.sc.list.failStreak + 1 then Over(s', t) && s'.sc.task.None?
            else Going(s', t, Moved(s.sc.list, !reachable)) && s'.runners[t].Top?
  {
    if EndVisit(s.sc.list, reachable).Some? {
      EndVisitAdvances(s.sc.list, reachable);
    }
  }

  lemma FinishIsOver(s: Sys, t: nat)
    requires t < s.started && s.sc.task == Some(t)
    ensures Over(Finish(s, t), t)
  {
  }

  /** The scanner inside a visit, with the step lock released. */
  ghost predicate Inside(s: Sys, t: nat) {
    && t < s.started && s.sc.task == Some(t) && !s.sc.stopping && !s.sc.held && s.sc.visitGen == s.sc.holdGen
    && InRange(s.sc.list) && s.sc.list.pending.None? && s.sc.list.failStreak < |s.sc.list.entries|
  }

  lemma ApplyTurn(s: Sys, t: nat, entry: Entry, c: Choice)
    requires Inside(s, t)
    ensures VisitTurn(LeaveBody(s, t, Apply, entry, c), t, s.sc.list, Unreachable(Body(Apply, entry), c))
  {
    if c.outcome.Raised? {
      FinishIsOver(s, t);
    } else {
      var tuned := s.(sc := s.sc.(tuned := if c.outcome.Good? then Some(entry.ref) else None));
      if c.outcome.Updating? {
        FinishIsOver(tuned, t);
      } else if !c.outcome.Good? || s.sc.skip {
        LeaveVisitMoves(tuned, t, c.outcome.Good?);
      }
    }
  }

  lemma NextPollTurn(s: Sys, t: nat, entry: Entry, hang: bool)
    requires Inside(s, t)
    ensures VisitTurn(NextPoll(s, t, entry, hang), t, s.sc.list, false)
  {
    LeaveVisitMoves(s, t, true);
  }

  lemma CarrierTurn(s: Sys, t: nat, work: Work, entry: Entry, c: Choice)
    requires Inside(s, t) && (work.Listen? || work.Poll?) && !LeaveBody(s, t, work, entry, c).sc.held
    ensures VisitTurn(LeaveBody(s, t, work, entry, c), t, s.sc.list, Unreachable(Body(work, entry), c))
  {
    if c.outcome.Updating? || c.outcome.Raised? {
      FinishIsOver(s, t);
    } else if !c.outcome.CarrierOn? && !c.outcome.CarrierOff? {
      LeaveVisitMoves(s, t, false);
    } else if c.outcome.CarrierOff? && c.due {
      LeaveVisitMoves(s, t, true);
      NextPollTurn(s, t, entry, true);
    } else {
      NextPollTurn(s, t, entry, true);
      NextPollTurn(s, t, entry, false);
    }
  }

  lemma BodyTurn(s: Sys, t: nat, work: Work, entry: Entry, c: Choice)
    requires Inside(s, t) && !LeaveBody(s, t, work, entry, c).sc.held
    ensures VisitTurn(LeaveBody(s, t, work, entry, c), t, s.sc.list, Unreachable(Body(work, entry), c))
  {
    match work
    case Apply => ApplyTurn(s, t, entry, c);
    case Announce(hang) => NextPollTurn(s, t, entry, hang);
    case Listen => CarrierTurn(s, t, work, entry, c);
    case Poll(_) => CarrierTurn(s, t, work, entry, c);
    case _ =>
  }

  /** A turn of the task inside a visit. */
  lemma GoingVisit(s: Sys, t: nat, c: Choice, list: Cursor)
    requires Inv(s) && Going(s, t, list) && Enabled(s, RunnerGo(t, c)) && InVisit(s.runners[t])
    requires !RunnerStep(s, t, c).sc.held
    ensures VisitTurn(RunnerStep(s, t, c), t, list, Unreachable(s.runners[t], c))
  {
    match s.runners[t]
    case Wait(_, _) => FinishIsOver(s, t);
    case Body(work, entry) => BodyTurn(s.(lock := None), t, work, entry, c);
    case Sleep(_, _) => LeaveVisitMoves(s, t, true);
  }

  /** A turn of the task between visits starts the next one at the cursor. */
  lemma GoingTop(s: Sys, t: nat, c: Choice, list: Cursor)
    requires Inv(s) && Going(s, t, list) && s.runners[t].Top? && !RunnerStep(s, t, c).sc.held
    ensures var s' := RunnerStep(s, t, c);
            Going(s', t, list) && s'.runners[t] == Wait(Scanning, list.entries[list.index])
  {
  }

  lemma GoingElse(s: Sys, e: Event, t: nat, list: Cursor)
    requires Inv(s) && Going(s, t, list) && Enabled(s, e) && !(e.RunnerGo? && e.task == t) && !e.Update?
    requires !Step(s, e).sc.held
    ensures Over(Step(s, e), t) || (Going(Step(s, e), t, list) && Step(s, e).runners[t] == s.runners[t])
  {
    match e
    case RunnerGo(u, _) => assert s.runners[u].Sending?;
    case HandlerGo(_, _) => assert !Holding(s.handler) && !s.handler.StopSend?;
    case _ =>
  }

  /** A turn of a task either gives up the scanner or leaves it to its scan and its stop(). */
  ghost predicate Leaves(s: Sys, s': Sys) {
    && s'.started == s.started
    && (s'.sc.task.None? || (s'.sc.task == s.sc.task && s'.sc.stopping == s.sc.stopping))
  }

  lemma LeaveVisitLeaves(s: Sys, t: nat, reachable: bool)
    ensures Leaves(s, LeaveVisit(s, t, reachable)) && Leaves(s, Finish(s, t))
  {
  }

  lemma CarrierLeaves(s: Sys, t: nat, work: Work, entry: Entry, c: Choice)
    requires work.Listen? || work.Poll?
    ensures Leaves(s, LeaveBody(s, t, work, entry, c))
  {
    var s' := LeaveBody(s, t, work, entry, c);
    LeaveVisitLeaves(s, t, s' == LeaveVisit(s, t, true) || (work.Poll? && s' == NextPoll(s, t, entry, work.hang)));
  }

  lemma VisitLeaves(s: Sys, t: nat, work: Work, entry: Entry, c: Choice)
    ensures Leaves(s, LeaveBody(s, t, work, entry, c))
  {
    match work
    case Apply =>
      LeaveVisitLeaves(s.(sc := s.sc.(tuned := TunedAfter(s, Apply, entry, c))), t, c.outcome.Good?);
      LeaveVisitLeaves(s, t, true);
    case Announce(_) => LeaveVisitLeaves(s, t, true);
    case Scanning =>
    case RouteTx =>
    case _ => CarrierLeaves(s, t, work, entry, c);
  }

  lemma TurnLeaves(s: Sys, t: nat, c: Choice)
    requires t in s.runners
    ensures Leaves(s, RunnerStep(s, t, c))
  {
    match s.runners[t]
    case Body(work, entry) => VisitLeaves(s.(lock := None), t, work, entry, c);
    case Sleep(_, _) => LeaveVisitLeaves(s, t, true);
    case Top => TopLeaves(s, t, c.drained);
    case HoldEmit(_) => LeaveVisitLeaves(s.(lock := None), t, true);
    case _ => LeaveVisitLeaves(s, t, true);
  }

  lemma TopLeaves(s: Sys, t: nat, drained: bool)
    ensures Leaves(s, Turn(s, t, drained))
  {
    LeaveVisitLeaves(s, t, true);
  }

  lemma OverHandler(s: Sys, pos: nat, ok: bool, t: nat)
    requires Inv(s) && Over(s, t) && HandlerEnabled(s, pos, ok)
    ensures Over(HandlerStep(s, pos, ok), t)
  {
  }

  lemma OverStep(s: Sys, e: Event, t: nat)
    requires Inv(s) && Over(s, t) && Enabled(s, e)
    ensures Over(Step(s, e), t)
  {
    match e
    case RunnerGo(u, c) => TurnLeaves(s, u, c);
    case HandlerGo(pos, ok) => OverHandler(s, pos, ok, t);
    case _ =>
  }

  // --- runs ------------------------------------------------------------------------------------------

  /** How many visits of `t` ended between `i` and `k`. */
  ghost function Ended(ss: seq<Sys>, es: seq<Event>, t: nat, i: nat, k: nat): nat
    requires |ss| == |es| + 1 && i <= k <= |es|
  {
    if k == i then 0 else Ended(ss, es, t, i, k - 1) + if EndsAt(ss, es, t, k - 1) then 1 else 0
  }

  /** How many of the last of them failed in a row, on top of `before`. */
  ghost function Streak(ss: seq<Sys>, es: seq<Event>, t: nat, i: nat, k: nat, before: nat): nat
    requires |ss| == |es| + 1 && i <= k <= |es|
  {
    if k == i then before
    else if FailsAt(ss, es, t, k - 1) then Streak(ss, es, t, i, k - 1, before) + 1
    else if EndsAt(ss, es, t, k - 1) then 0
    else Streak(ss, es, t, i, k - 1, before)
  }

  /** `visits` places on from `i`, around a list of `n`. */
  function Around(i: nat, visits: nat, n: nat): (r: nat)
    requires i < n
    ensures r < n
  {
    if visits == 0 then i else Wrap(Around(i, visits - 1, n) + 1, n)
  }

  lemma {:induction false} AroundOnce(i: nat, visits: nat, n: nat)
    requires i < n && visits < n
    ensures Around(i, visits, n) == Wrap(i + visits, n)
  {
    if visits > 0 {
      AroundOnce(i, visits - 1, n);
    }
  }

  /** The cursor that many visits on, with that many failures in a row. */
  function Advanced(list: Cursor, visits: nat, streak: nat): (r: Cursor)
    requires InRange(list)
    ensures InRange(r)
  {
    Cursor(list.entries, None, Around(list.index, visits, |list.entries|), streak)
  }

  /**
    Over every run: as long as no hold is set and no update arrives, the scan is over or its cursor
    is exactly as far as its visits ended, with their failures in a row.
   */
  lemma {:induction false} VisitsMoveOn(ss: seq<Sys>, es: seq<Event>, t: nat, list: Cursor, i: nat, k: nat)
    requires IsRun(ss, es) && i <= k <= |es| && Going(ss[i], t, list) && Quiet(ss, es, i, k)
    ensures || Over(ss[k], t)
            || Going(ss[k], t, Advanced(list, Ended(ss, es, t, i, k), Streak(ss, es, t, i, k, list.failStreak)))
  {
    if k == i {
      assert Advanced(list, 0, list.failStreak) == list;
    } else {
      VisitsMoveOn(ss, es, t, list, i, k - 1);
      VisitsMoveStep(ss, es, t, list, k - 1, Ended(ss, es, t, i, k - 1), Streak(ss, es, t, i, k - 1, list.failStreak));
    }
  }

  lemma VisitsMoveStep(ss: seq<Sys>, es: seq<Event>, t: nat, list: Cursor, m: nat, visits: nat, streak: nat)
    requires IsRun(ss, es) && m < |es| && InRange(list) && list.pending.None?
    requires !SetsHeld(ss[m], ss[m + 1]) && !es[m].Update?
    requires Over(ss[m], t) || Going(ss[m], t, Advanced(list, visits, streak))
    ensures || Over(ss[m + 1], t)
            || Going(ss[m + 1], t, if EndsAt(ss, es, t, m)
                                   then Advanced(list, visits + 1, if FailsAt(ss, es, t, m) then streak + 1 else 0)
                                   else Advanced(list, visits, streak))
  {
    RunKeepsInv(ss, es, m);
    assert StepAt(ss, es, m);
    var s, e, at := ss[m], es[m], Advanced(list, visits, streak);
    if Over(s, t) {
      OverStep(s, e, t);
    } else if !(e.RunnerGo? && e.task == t) {
      GoingElse(s, e, t, at);
    } else if s.runners[t].Top? {
      GoingTop(s, t, e.choice, at);
    } else {
      GoingVisit(s, t, e.choice, at);
      assert Moved(at, Unreachable(s.runners[t], e.choice)).index == Around(list.index, visits + 1, |list.entries|);
    }
  }

  lemma NoVisitWhenOver(s: Sys, t: nat, c: Choice)
    requires Inv(s) && t in s.runners && s.runners[t].Top? && Over(s, t)
    ensures !StartsVisit(s, RunnerStep(s, t, c), t)
  {
  }

  /** Between two visits in a row exactly one visit ends. */
  lemma {:induction false} OneEndBetween(ss: seq<Sys>, es: seq<Event>, t: nat, list: Cursor, i: nat, m: nat)
    requires IsRun(ss, es) && i < m <= |es| && Going(ss[i], t, list) && Quiet(ss, es, i, m)
    requires FreshVisitAt(ss, es, t, i) && forall k :: i < k < m ==> !FreshVisitAt(ss, es, t, k)
    ensures Over(ss[m], t) || (t in ss[m].runners
            && Ended(ss, es, t, i, m) == if InVisit(ss[m].runners[t]) then 0 else 1)
  {
    if m == i + 1 {
      assert Ended(ss, es, t, i, i) == 0 && !EndsAt(ss, es, t, i);
    } else {
      OneEndBetween(ss, es, t, list, i, m - 1);
      assert !FreshVisitAt(ss, es, t, m - 1);
      VisitsMoveOn(ss, es, t, list, i, m - 1);
      EndBetweenStep(ss, es, t, m - 1);
    }
  }

  lemma EndBetweenStep(ss: seq<Sys>, es: seq<Event>, t: nat, m: nat)
    requires IsRun(ss, es) && m < |es| && !SetsHeld(ss[m], ss[m + 1]) && !es[m].Update?
    requires !FreshVisitAt(ss, es, t, m) && (Over(ss[m], t) || Going(ss[m], t, ss[m].sc.list))
    ensures || Over(ss[m + 1], t)
            || (&& Going(ss[m], t, ss[m].sc.list) && t in ss[m + 1].runners
                && (InVisit(ss[m + 1].runners[t]) <==> InVisit(ss[m].runners[t]) && !EndsAt(ss, es, t, m)))
  {
    RunKeepsInv(ss, es, m);
    assert StepAt(ss, es, m);
    var s, e := ss[m], es[m];
    if Over(s, t) {
      OverStep(s, e, t);
    } else if !(e.RunnerGo? && e.task == t) {
      GoingElse(s, e, t, s.sc.list);
    } else if s.runners[t].Top? {
      GoingTop(s, t, e.choice, s.sc.list);
    } else {
      GoingVisit(s, t, e.choice, s.sc.list);
    }
  }

  /** Visits of `t` in a row. */
  ghost predicate Consecutive(ss: seq<Sys>, es: seq<Event>, t: nat, ks: seq<nat>)
    requires |ss| == |es| + 1
  {
    && (forall x :: 0 <= x < |ks| ==> ks[x] < |es| && FreshVisitAt(ss, es, t, ks[x]))
    && (forall x :: 0 <= x < |ks| - 1 ==> NextVisit(ss, es, t, ks[x], ks[x + 1]))
  }

  ghost predicate NextVisit(ss: seq<Sys>, es: seq<Event>, t: nat, k: nat, k': nat)
    requires |ss| == |es| + 1 && k' < |es|
  {
    k < k' && forall m :: k < m < k' ==> !FreshVisitAt(ss, es, t, m)
  }

  lemma VisitFollows(ss: seq<Sys>, es: seq<Event>, t: nat, list: Cursor, k: nat, k': nat)
    requires IsRun(ss, es) && k < k' < |es| && Going(ss[k], t, list) && Quiet(ss, es, k, k')
    requires FreshVisitAt(ss, es, t, k) && FreshVisitAt(ss, es, t, k') && NextVisit(ss, es, t, k, k')
    ensures var next := ss[k'].sc.list;
            Going(ss[k'], t, next) && next.entries == list.entries && next.index == Wrap(list.index + 1, |list.entries|)
  {
    RunKeepsInv(ss, es, k');
    assert StepAt(ss, es, k');
    VisitsMoveOn(ss, es, t, list, k, k');
    OneEndBetween(ss, es, t, list, k, k');
    if Over(ss[k'], t) {
      NoVisitWhenOver(ss[k'], t, es[k'].choice);
      assert false;
    }
    assert Around(list.index, 1, |list.entries|) == Wrap(Around(list.index, 0, |list.entries|) + 1, |list.entries|);
  }

  lemma {:induction false} VisitIs(ss: seq<Sys>, es: seq<Event>, t: nat, list: Cursor, ks: seq<nat>, x: nat)
    requires IsRun(ss, es) && Consecutive(ss, es, t, ks) && x < |ks| && Going(ss[ks[0]], t, list)
    requires Quiet(ss, es, ks[0], ks[|ks| - 1] + 1)
    ensures ks[0] <= ks[x] <= ks[|ks| - 1]
    ensures var at := ss[ks[x]].sc.list;
            && Going(ss[ks[x]], t, at) && at.entries == list.entries
            && at.index == Around(list.index, x, |list.entries|)
            && ss[ks[x] + 1].runners[t] == Wait(Scanning, list.entries[at.index])
  {
    Ordered(ss, es, t, ks, x);
    if x > 0 {
      VisitIs(ss, es, t, list, ks, x - 1);
      assert NextVisit(ss, es, t, ks[x - 1], ks[x]);
      VisitFollows(ss, es, t, ss[ks[x - 1]].sc.list, ks[x - 1], ks[x]);
    }
    var k := ks[x];
    assert FreshVisitAt(ss, es, t, k);
    RunKeepsInv(ss, es, k);
    assert StepAt(ss, es, k);
    GoingTop(ss[k], t, es[k].choice, ss[k].sc.list);
  }

  lemma {:induction false} Ordered(ss: seq<Sys>, es: seq<Event>, t: nat, ks: seq<nat>, x: nat)
    requires |ss| == |es| + 1 && Consecutive(ss, es, t, ks) && x < |ks|
    ensures ks[0] <= ks[x] <= ks[|ks| - 1]
    decreases |ks|
  {
    if x == |ks| - 1 {
      if x > 0 {
        assert NextVisit(ss, es, t, ks[x - 1], ks[x]);
        Ordered(ss, es, t, ks[..x], x - 1);
      }
    } else {
      assert NextVisit(ss, es, t, ks[|ks| - 2], ks[|ks| - 1]);
      Ordered(ss, es, t, ks[..|ks| - 1], x);
    }
  }

  /**
    In every run, as many visits in a row as the list is long, with no hold set and no update between
    them, are to the entries of the list and reach every position exactly once.
   */
  lemma PassCoversList(ss: seq<Sys>, es: seq<Event>, t: nat, list: Cursor, ks: seq<nat>, target: nat)
    requires IsRun(ss, es) && Consecutive(ss, es, t, ks) && |ks| == |list.entries| > target
    requires Going(ss[ks[0]], t, list) && Quiet(ss, es, ks[0], ks[|ks| - 1] + 1)
    ensures exists x :: 0 <= x < |ks| && VisitsPosition(ss, ks[x], t, list, target)
    ensures forall x, y :: 0 <= x < y < |ks| ==> ss[ks[x]].sc.list.index != ss[ks[y]].sc.list.index
  {
    var n := |list.entries|;
    forall x | 0 <= x < |ks|
      ensures ss[ks[x]].sc.list.index == Wrap(list.index + x, n)
      ensures VisitsPosition(ss, ks[x], t, list, Wrap(list.index + x, n))
    {
      VisitIs(ss, es, t, list, ks, x);
      AroundOnce(list.index, x, n);
    }
    var x := if list.index <= target then target - list.index else n - list.index + target;
    assert VisitsPosition(ss, ks[x], t, list, target);
  }

  /** The visit that begins at `k` is to the entry at this position. */
  ghost predicate VisitsPosition(ss: seq<Sys>, k: nat, t: nat, list: Cursor, p: nat) {
    && k + 1 < |ss| && p < |list.entries| && ss[k].sc.list.index == p
    && t in ss[k + 1].runners && ss[k + 1].runners[t] == Wait(Scanning, list.entries[p])
  }

  /**
    In every run without a hold set or an update: a visit that fails ends the scan if and only if with
    it the failures in a row fill the list.
   */
  lemma FailingVisitStopsIff(ss: seq<Sys>, es: seq<Event>, t: nat, list: Cursor, i: nat, k: nat)
    requires IsRun(ss, es) && i <= k < |es| && Going(ss[i], t, list) && Quiet(ss, es, i, k + 1)
    requires !Over(ss[k], t) && FailsAt(ss, es, t, k)
    ensures ss[k + 1].sc.task.None? <==> |list.entries| <= Streak(ss, es, t, i, k, list.failStreak) + 1
  {
    VisitsMoveOn(ss, es, t, list, i, k);
    RunKeepsInv(ss, es, k);
    assert StepAt(ss, es, k);
    FailingTurn(ss[k], t, es[k].choice);
  }

  lemma FailingTurn(s: Sys, t: nat, c: Choice)
    requires Inv(s) && Going(s, t, s.sc.list) && InVisit(s.runners[t]) && Unreachable(s.runners[t], c)
    ensures RunnerStep(s, t, c).sc.task.None? <==> |s.sc.list.entries| <= s.sc.list.failStreak + 1
  {
    var free, r := s.(lock := None), s.runners[t];
    LeaveVisitMoves(free.(sc := s.sc.(tuned := TunedAfter(free, r.work, r.entry, c))), t, false);
  }
}

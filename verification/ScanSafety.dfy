/** What every interleaving of scan task, message handler and dead-man tasks keeps. */
module ScanSafety {
  import opened Options
  import opened ScanList
  import opened ScanSystem
  import B = PttBroker

  // --- the invariant ------------------------------------------------------------------------

  ghost predicate LockInv(s: Sys) {
    && (forall t :: t in s.runners ==> (InLock(s.runners[t]) <==> s.lock == Some(ByRunner(t))))
    && (s.lock.Some? && s.lock.value.ByRunner? ==> s.lock.value.task in s.runners)
    && (s.handler.HoldingEmit? || s.handler.HoldingRoute? <==> s.lock == Some(ByHandler))
  }

  /** At most one task drives the scanner; the others only still send their terminal frame. */
  ghost predicate TaskInv(s: Sys) {
    && (forall t :: t in s.runners ==> t < s.started)
    && (forall t :: t in s.runners && !s.runners[t].Sending? ==> s.sc.task == Some(t))
    && (s.sc.task.Some? && s.sc.task.value in s.runners ==> !s.runners[s.sc.task.value].Sending?)
    && (s.sc.task.Some? ==> s.sc.task.value < s.started)
    && (s.sc.task.Some? && !s.sc.stopping ==> s.sc.task.value in s.runners)
    && (s.sc.stopping <==> s.handler.StopWait? || s.handler.StopJoin?)
    && (s.sc.stopping ==> s.sc.task == Some(s.handler.task))
    && (s.handler.StopSend? ==> s.sc.task.None?)
    // A hold that outlives its scan still notes where it moved tx_route.
    && (s.sc.task.None? ==> s.sc.(routed := None) == IDLE)
  }

  ghost predicate ListInv(s: Sys) {
    && (s.sc.task.Some? ==> InRange(s.sc.list))
    && (s.handler.StopWait? || s.handler.StopJoin? || s.handler.StopSend? ==>
          s.handler.start.Some? ==> s.handler.start.value != [])
  }

  ghost predicate Holding(h: Handler) {
    h.HoldingWait? || h.HoldingEmit? || h.HoldingRoute?
  }

  /** The handler is on the device with a key or a hand retune that held the scan first. */
  ghost predicate Overriding(h: Handler) {
    (h.Keying? && h.on) || (h.OnDevice? && h.scanned)
  }

  /** A hold outdates every visit that is under way, and only its own wait leaves a body running. */
  ghost predicate HoldInv(s: Sys) {
    && s.sc.visitGen <= s.sc.holdGen
    && (s.sc.held ==> !s.sc.resume)
    && (Holding(s.handler) || Overriding(s.handler) ==> s.sc.held || s.sc.task.None?)
    && (s.handler.HoldingWait? || s.handler.HoldingEmit? ==>
          s.handler.keyed == if s.handler.next.KeyUp? then Some(s.handler.next.addr) else None)
    && (s.sc.held ==> forall t :: t in s.runners && InVisit(s.runners[t]) ==> s.sc.visitGen < s.sc.holdGen)
    && (s.sc.held && !s.handler.HoldingWait? ==> forall t :: t in s.runners ==> !s.runners[t].Body?)
  }

  /**
    No module is keyed, being keyed, or in `_unkeying`.  A fail-safe unkey that `_unkeying` has lost
    to an overlapping one may still be on the wire.
   */
  ghost predicate NoKey(b: B.State) {
    && b.ptt == map[] && b.unkeying == {}
    && forall i :: 0 <= i < |b.wire| && b.wire[i].Key? ==> !b.wire[i].on
  }

  ghost predicate KeyInv(s: Sys) {
    && B.Inv(s.br)
    && (s.handler.Keying? <==> s.br.inflight != {})
    && (forall t :: t in s.runners && InVisit(s.runners[t]) && s.sc.visitGen == s.sc.holdGen ==> NoKey(s.br))
  }

  ghost predicate Inv(s: Sys) {
    LockInv(s) && TaskInv(s) && ListInv(s) && HoldInv(s) && KeyInv(s)
  }

  // --- the scan task ------------------------------------------------------------------------

  lemma OthersOnlySend(s: Sys, t: nat)
    requires TaskInv(Put(s, t, Top))
    ensures s.sc.task == Some(t)
    ensures forall u :: u in s.runners && u != t ==> s.runners[u].Sending?
  {
    assert Put(s, t, Top).runners[t].Top?;
    forall u | u in s.runners && u != t
      ensures s.runners[u].Sending?
    {
      assert Put(s, t, Top).runners[u] == s.runners[u];
    }
  }

  lemma FinishKeeps(s: Sys, t: nat)
    requires Inv(Put(s, t, Top))
    ensures Inv(Finish(s, t))
  {
    OthersOnlySend(s, t);
  }

  /** A task may go on to any place outside a visit that needs no lock. */
  lemma OutsideKeeps(s: Sys, t: nat, r: Runner)
    requires Inv(Put(s, t, Top)) && (r.Top? || r.Parked? || r.HoldWait?)
    ensures Inv(Put(s, t, r))
  {
  }

  /** A task may go on inside its visit while that visit is outdated or nothing is keyed. */
  lemma VisitKeeps(s: Sys, t: nat, r: Runner)
    requires Inv(Put(s, t, Top)) && (r.Wait? || r.Sleep?)
    requires s.sc.held ==> s.sc.visitGen < s.sc.holdGen
    requires s.sc.visitGen == s.sc.holdGen ==> NoKey(s.br)
    ensures Inv(Put(s, t, r))
  {
  }

  lemma IdleMeansNoKey(s: Sys)
    requires KeyInv(s) && !B.PttActive(s.br)
    ensures NoKey(s.br)
  {
  }

  lemma HoldIfKeyedKeeps(s: Sys, t: nat, r: Runner)
    requires Inv(Put(s, t, Top)) && (r.Wait? || r.Sleep?)
    requires s.sc.held ==> s.sc.visitGen < s.sc.holdGen
    ensures Inv(HoldIfKeyed(s, t, r))
  {
    if !B.PttActive(s.br) {
      IdleMeansNoKey(Put(s, t, Top));
      VisitKeeps(s, t, r);
    } else if !HoldRefused(s.sc) {
      var s' := s.(sc := MarkHeld(s.sc));
      OthersOnlySend(s, t);
      assert Inv(Put(s', t, Top));
      OutsideKeeps(s', t, HoldWait);
    }
  }

  lemma LeaveVisitKeeps(s: Sys, t: nat, reachable: bool)
    requires Inv(Put(s, t, Top))
    ensures Inv(LeaveVisit(s, t, reachable))
  {
    FinishKeeps(s, t);
  }

  lemma TurnKeeps(s: Sys, t: nat, drained: bool)
    requires Inv(s) && t in s.runners && s.runners[t].Top?
    ensures Inv(Turn(s, t, drained))
  {
    assert Put(s, t, Top) == s;
    FinishKeeps(s, t);
    if !s.sc.held && !s.sc.stopping {
      var entry := s.sc.list.entries[s.sc.list.index];
      var s' := s.(sc := s.sc.(skip := false, visitGen := s.sc.holdGen));
      assert Put(s', t, Top) == s';
      assert Inv(s');
      HoldIfKeyedKeeps(s', t, Wait(Scanning, entry));
    }
  }

  lemma UnparkKeeps(s: Sys, t: nat, drained: bool)
    requires Inv(s) && t in s.runners && s.runners[t].Parked?
    ensures Inv(Unpark(s, t, drained))
  {
    assert Inv(Put(s, t, Top));
    FinishKeeps(s, t);
  }

  lemma HoldWaitKeeps(s: Sys, t: nat, c: Choice)
    requires Inv(s) && Enabled(s, RunnerGo(t, c)) && s.runners[t].HoldWait?
    ensures Inv(RunnerStep(s, t, c))
  {
  }

  lemma HoldEmitKeeps(s: Sys, t: nat, c: Choice)
    requires Inv(s) && Enabled(s, RunnerGo(t, c)) && s.runners[t].HoldEmit?
    ensures Inv(RunnerStep(s, t, c))
  {
    var free := s.(lock := None);
    assert Inv(Put(free, t, Top));
    FinishKeeps(free, t);
  }

  lemma HoldRouteKeeps(s: Sys, t: nat, c: Choice)
    requires Inv(s) && Enabled(s, RunnerGo(t, c)) && s.runners[t].HoldRoute?
    ensures Inv(RunnerStep(s, t, c))
  {
  }

  lemma EnterBodyKeeps(s: Sys, t: nat, c: Choice)
    requires Inv(s) && Enabled(s, RunnerGo(t, c)) && s.runners[t].Wait?
    ensures Inv(RunnerStep(s, t, c))
  {
    assert Inv(Put(s, t, Top));
    FinishKeeps(s, t);
  }

  lemma TunedKeeps(s: Sys, t: nat, tuned: Option<string>)
    requires Inv(Put(s, t, Top))
    ensures Inv(Put(s.(sc := s.sc.(tuned := tuned)), t, Top))
  {
    OthersOnlySend(s, t);
  }

  lemma ApplyKeeps(s: Sys, t: nat, entry: Entry, c: Choice)
    requires Inv(Put(s, t, Top))
    requires s.sc.held ==> s.sc.visitGen < s.sc.holdGen
    requires s.sc.visitGen == s.sc.holdGen ==> NoKey(s.br)
    ensures Inv(LeaveBody(s, t, Apply, entry, c))
  {
    if c.outcome.Raised? {
      FinishKeeps(s, t);
    } else {
      var tuned := s.(sc := s.sc.(tuned := if c.outcome.Good? then Some(entry.ref) else None));
      TunedKeeps(s, t, tuned.sc.tuned);
      if c.outcome.Updating? {
        FinishKeeps(tuned, t);
      } else if !c.outcome.Good? || s.sc.skip {
        LeaveVisitKeeps(tuned, t, c.outcome.Good?);
      } else {
        VisitKeeps(tuned, t, Wait(Listen, entry));
      }
    }
  }

  lemma LeaveBodyKeeps(s: Sys, t: nat, work: Work, entry: Entry, c: Choice)
    requires Inv(Put(s, t, Top))
    requires s.sc.held ==> s.sc.visitGen < s.sc.holdGen
    requires s.sc.visitGen == s.sc.holdGen ==> NoKey(s.br)
    ensures Inv(LeaveBody(s, t, work, entry, c))
  {
    match work
    case Scanning => VisitKeeps(s, t, Wait(Apply, entry));
    case Apply => ApplyKeeps(s, t, entry, c);
    case RouteTx =>
      var routed := s.(sc := s.sc.(routed := Some(entry.ref)));
      assert Inv(Put(routed, t, Top));
      VisitKeeps(routed, t, Wait(Announce(false), entry));
    case Announce(hang) => NextPollKeeps(s, t, entry, hang);
    case _ => CarrierKeeps(s, t, work, entry, c);
  }

  lemma CarrierKeeps(s: Sys, t: nat, work: Work, entry: Entry, c: Choice)
    requires Inv(Put(s, t, Top)) && (work.Listen? || work.Poll?)
    requires s.sc.held ==> s.sc.visitGen < s.sc.holdGen
    requires s.sc.visitGen == s.sc.holdGen ==> NoKey(s.br)
    ensures Inv(LeaveBody(s, t, work, entry, c))
  {
    var s' := LeaveBody(s, t, work, entry, c);
    if s' == Finish(s, t) {
      FinishKeeps(s, t);
    } else if s' == LeaveVisit(s, t, true) {
      LeaveVisitKeeps(s, t, true);
    } else if s' == LeaveVisit(s, t, false) {
      LeaveVisitKeeps(s, t, false);
    } else if work.Poll? && s' == NextPoll(s, t, entry, work.hang) {
      NextPollKeeps(s, t, entry, work.hang);
    } else if work.Listen? && c.outcome.CarrierOn? {
      HoldIfKeyedKeeps(s, t, Wait(RouteTx, entry));
    } else {
      VisitKeeps(s, t, if work.Listen? then Sleep(Listen, entry) else Wait(Announce(!work.hang), entry));
    }
  }

  lemma NextPollKeeps(s: Sys, t: nat, entry: Entry, hang: bool)
    requires Inv(Put(s, t, Top))
    requires s.sc.held ==> s.sc.visitGen < s.sc.holdGen
    requires s.sc.visitGen == s.sc.holdGen ==> NoKey(s.br)
    ensures Inv(NextPoll(s, t, entry, hang))
  {
    LeaveVisitKeeps(s, t, true);
    VisitKeeps(s, t, Sleep(Poll(hang), entry));
  }

  lemma BodyKeeps(s: Sys, t: nat, c: Choice)
    requires Inv(s) && Enabled(s, RunnerGo(t, c)) && s.runners[t].Body?
    ensures Inv(RunnerStep(s, t, c))
  {
    var r, free := s.runners[t], s.(lock := None);
    assert Inv(Put(free, t, Top));
    LeaveBodyKeeps(free, t, r.work, r.entry, c);
  }

  lemma SleepKeeps(s: Sys, t: nat, c: Choice)
    requires Inv(s) && Enabled(s, RunnerGo(t, c)) && s.runners[t].Sleep?
    ensures Inv(RunnerStep(s, t, c))
  {
    var r := s.runners[t];
    assert Inv(Put(s, t, Top));
    LeaveVisitKeeps(s, t, true);
    VisitKeeps(s, t, Wait(r.next, r.entry));
  }

  lemma RunnerKeeps(s: Sys, t: nat, c: Choice)
    requires Inv(s) && Enabled(s, RunnerGo(t, c))
    ensures Inv(RunnerStep(s, t, c))
  {
    match s.runners[t]
    case Top => TurnKeeps(s, t, c.drained);
    case Parked => UnparkKeeps(s, t, c.drained);
    case Wait(_, _) => EnterBodyKeeps(s, t, c);
    case Body(_, _) => BodyKeeps(s, t, c);
    case Sleep(_, _) => SleepKeeps(s, t, c);
    case HoldWait => HoldWaitKeeps(s, t, c);
    case HoldEmit(_) => HoldEmitKeeps(s, t, c);
    case HoldRoute(_) => HoldRouteKeeps(s, t, c);
    case Sending(_) =>
  }

  // --- the message handler ------------------------------------------------------------------

  /** A key may go on the wire whenever no visit is current. */
  lemma KeyOnWireKeeps(s: Sys, a: B.Addr, on: bool)
    requires Inv(s.(handler := Ready))
    requires on ==> s.sc.held || s.sc.task.None?
    ensures Inv(KeyOnWire(s, a, on))
  {
    var e := B.KeyStart(a, on);
    B.InvStep(s.br, e);
  }

  lemma ProceedKeeps(s: Sys, next: Next)
    requires Inv(s.(handler := Ready))
    requires s.sc.held || s.sc.task.None?
    ensures Inv(Proceed(s, next))
  {
    if next.KeyUp? {
      KeyOnWireKeeps(s, next.addr, true);
    }
  }

  lemma HandlerHoldKeeps(s: Sys, keyed: Option<B.Addr>, next: Next)
    requires Inv(s) && s.handler.Ready?
    requires keyed == if next.KeyUp? then Some(next.addr) else None
    ensures Inv(HandlerHold(s, keyed, next))
  {
    if HoldRefused(s.sc) {
      assert s.(handler := Ready) == s;
      ProceedKeeps(s, next);
    }
  }

  lemma HandlerStopKeeps(s: Sys, start: Option<seq<Entry>>)
    requires Inv(s) && s.handler.Ready? && (start.Some? ==> start.value != [])
    ensures Inv(HandlerStop(s, start))
  {
  }

  lemma MessageKeeps(s: Sys, e: Event)
    requires Inv(s) && Enabled(s, e)
    requires !e.HandlerGo? && !e.RunnerGo? && !e.Cancel? && !e.BrokerGo?
    ensures Inv(Message(s, e))
  {
    assert s.(handler := Ready) == s;
    match e
    case Ptt(a, on) =>
      HandlerHoldKeeps(s, Some(a), KeyUp(a));
      if !on { KeyOnWireKeeps(s, a, false); }
    case Keepalive(a) => KeepaliveKeeps(s, a);
    case HoldMsg => HandlerHoldKeeps(s, None, Done);
    case StopMsg => HandlerStopKeeps(s, None);
    case Manual(a) => HandlerHoldKeeps(s, None, Device(a));
    case Update(_) => HandlerStopKeeps(s, None);
    case Start(list) => HandlerStopKeeps(s, Some(list));
    case _ =>
  }

  lemma KeepaliveKeeps(s: Sys, a: B.Addr)
    requires Inv(s) && s.handler.Ready?
    ensures Inv(Message(s, Keepalive(a)))
  {
    B.InvStep(s.br, B.Keepalive(a));
  }

  lemma HoldingWaitKeeps(s: Sys, pos: nat, ok: bool)
    requires Inv(s) && HandlerEnabled(s, pos, ok) && s.handler.HoldingWait?
    ensures Inv(HandlerStep(s, pos, ok))
  {
    if s.sc.task.None? || s.sc.stopping {
      ProceedKeeps(s, s.handler.next);
    }
  }

  lemma HoldingEmitKeeps(s: Sys, pos: nat, ok: bool)
    requires Inv(s) && s.handler.HoldingEmit?
    ensures Inv(HandlerStep(s, pos, ok))
  {
    var free := s.(lock := None);
    assert Inv(free.(handler := Ready));
    ProceedKeeps(free, s.handler.next);
  }

  lemma HoldingRouteKeeps(s: Sys, pos: nat, ok: bool)
    requires Inv(s) && s.handler.HoldingRoute?
    ensures Inv(HandlerStep(s, pos, ok))
  {
    var routed := s.(sc := s.sc.(routed := Some(s.handler.entry.ref)), lock := None);
    assert Inv(routed.(handler := Ready));
    ProceedKeeps(routed, s.handler.next);
  }

  lemma KeyDoneKeeps(s: Sys, pos: nat, ok: bool)
    requires Inv(s) && HandlerEnabled(s, pos, ok) && s.handler.Keying?
    ensures Inv(HandlerStep(s, pos, ok))
  {
    B.InvStep(s.br, B.KeyDone(pos, ok));
    B.RemoveAtIndex(s.br.wire, pos);
  }

  lemma StopJoinKeeps(s: Sys, pos: nat, ok: bool)
    requires Inv(s) && HandlerEnabled(s, pos, ok) && s.handler.StopJoin?
    ensures Inv(HandlerStep(s, pos, ok))
  {
  }

  lemma StopSendKeeps(s: Sys, pos: nat, ok: bool)
    requires Inv(s) && s.handler.StopSend?
    ensures Inv(HandlerStep(s, pos, ok))
  {
  }

  lemma HandlerKeeps(s: Sys, pos: nat, ok: bool)
    requires Inv(s) && HandlerEnabled(s, pos, ok)
    ensures Inv(HandlerStep(s, pos, ok))
  {
    match s.handler
    case HoldingWait(_, _) => HoldingWaitKeeps(s, pos, ok);
    case HoldingEmit(_, _, _) => HoldingEmitKeeps(s, pos, ok);
    case HoldingRoute(_, _) => HoldingRouteKeeps(s, pos, ok);
    case Keying(_, _) => KeyDoneKeeps(s, pos, ok);
    case StopSend(_, _) => StopSendKeeps(s, pos, ok);
    case StopJoin(_, _) => StopJoinKeeps(s, pos, ok);
    case _ =>
  }

  lemma BrokerKeeps(s: Sys, e: B.Event)
    requires Inv(s) && Enabled(s, BrokerGo(e))
    ensures Inv(s.(br := B.Step(s.br, e)))
  {
    B.InvStep(s.br, e);
    if e.FailsafeDone? {
      B.RemoveAtIndex(s.br.wire, e.pos);
    }
  }

  lemma InvStep(s: Sys, e: Event)
    requires Inv(s) && Enabled(s, e)
    ensures Inv(Step(s, e))
  {
    match e
    case HandlerGo(pos, ok) => HandlerKeeps(s, pos, ok);
    case RunnerGo(t, c) => RunnerKeeps(s, t, c);
    case Cancel(t) =>
    case BrokerGo(b) => BrokerKeeps(s, b);
    case _ => MessageKeeps(s, e);
  }

  lemma {:induction false} RunKeepsInv(ss: seq<Sys>, es: seq<Event>, n: nat)
    requires IsRun(ss, es) && n < |ss|
    ensures Inv(ss[n])
  {
    if n > 0 {
      RunKeepsInv(ss, es, n - 1);
      assert StepAt(ss, es, n - 1);
      InvStep(ss[n - 1], es[n - 1]);
    }
  }
}

/** Theorems about whole runs of the scanner and broker. */
module ScanTheorems {
  import opened Options
  import opened ScanList
  import opened ScanSystem
  import opened ScanSafety
  import B = PttBroker

  // --- PTT safety -----------------------------------------------------------------------------

  /** In this event the scan task `t` starts the body `work` of a `_step`. */
  ghost predicate StartsBody(s: Sys, s': Sys, t: nat, work: Work) {
    && t in s.runners && s.runners[t].Wait?
    && t in s'.runners && s'.runners[t].Body? && s'.runners[t].work == work
  }

  /**
    The scanner never starts an apply_preset, nor any other step, while a module is keyed or
    being unkeyed or a key command is on the wire.
   */
  lemma StepsStartUnkeyed(ss: seq<Sys>, es: seq<Event>, n: nat, t: nat, work: Work)
    requires IsRun(ss, es) && n < |es| && StartsBody(ss[n], ss[n + 1], t, work)
    ensures NoKey(ss[n].br) && NoKey(ss[n + 1].br)
  {
    RunKeepsInv(ss, es, n);
    RunKeepsInv(ss, es, n + 1);
    assert StepAt(ss, es, n);
    OnlyOwnTurnMoves(ss[n], es[n], t);
    var s, e := ss[n], es[n];
    assert e.RunnerGo? && e.task == t;
  }

  /** In this event the scanner starts moving tx_route to `entry`. */
  ghost predicate StartsRoute(s: Sys, s': Sys, entry: Entry) {
    || (exists t :: t in s.runners && t in s'.runners && s.runners[t] != s'.runners[t]
                    && (s'.runners[t] == Body(RouteTx, entry) || s'.runners[t] == HoldRoute(entry)))
    || (s.handler.HoldingEmit? && s'.handler.HoldingRoute? && s'.handler.entry == entry)
  }

  lemma TaskRouteStart(s: Sys, t: nat, c: Choice)
    requires Inv(s) && Enabled(s, RunnerGo(t, c)) && t in RunnerStep(s, t, c).runners
    requires !InLock(s.runners[t])  || s.runners[t].HoldEmit?
    requires InLock(RunnerStep(s, t, c).runners[t])
    ensures s.runners[t].HoldWait? || NoKey(s.br)
  {
    match s.runners[t]
    case HoldEmit(_) => IdleMeansNoKey(s);
    case Sleep(_, _) => LeaveVisitEffect(s, t, true);
    case _ =>
  }

  /** Every tx_route move starts with nothing keyed, or towards the module about to be keyed. */
  lemma RouteStartsUnkeyedOrToKeyed(ss: seq<Sys>, es: seq<Event>, n: nat, entry: Entry)
    requires IsRun(ss, es) && n < |es| && StartsRoute(ss[n], ss[n + 1], entry)
    ensures NoKey(ss[n].br) ||
            (ss[n].handler.HoldingEmit? && ss[n].handler.next == KeyUp(entry.addr))
  {
    RunKeepsInv(ss, es, n);
    assert StepAt(ss, es, n);
    var s, s', e := ss[n], ss[n + 1], es[n];
    if s.handler.HoldingEmit? && s'.handler.HoldingRoute? && s'.handler.entry == entry {
      HandlerRoutesUnkeyed(s, e, entry);
    } else {
      var t :| t in s.runners && t in s'.runners && s.runners[t] != s'.runners[t]
               && (s'.runners[t] == Body(RouteTx, entry) || s'.runners[t] == HoldRoute(entry));
      OnlyOwnTurnMoves(s, e, t);
      TaskRoutesUnkeyed(s, t, e.choice, entry);
    }
  }

  lemma HandlerRoutesUnkeyed(s: Sys, e: Event, entry: Entry)
    requires Inv(s) && Enabled(s, e) && s.handler.HoldingEmit?
    requires Step(s, e).handler.HoldingRoute? && Step(s, e).handler.entry == entry
    ensures NoKey(s.br) || s.handler.next == KeyUp(entry.addr)
  {
    if e.RunnerGo? && !s.runners[e.task].Sending? && !ParksItself(s, e.task) {
      TaskStep(s, e.task, e.choice);
    }
    if !B.PttActive(s.br) {
      IdleMeansNoKey(s);
    }
  }

  lemma TaskRoutesUnkeyed(s: Sys, t: nat, c: Choice, entry: Entry)
    requires Inv(s) && Enabled(s, RunnerGo(t, c)) && t in RunnerStep(s, t, c).runners
    requires RunnerStep(s, t, c).runners[t] in [Body(RouteTx, entry), HoldRoute(entry)]
    requires s.runners[t] != RunnerStep(s, t, c).runners[t]
    ensures NoKey(s.br)
  {
    var r := s.runners[t];
    if r.Body? {
      LeaveBodyEffect(s.(lock := None), t, r.work, r.entry, c);
    } else if !r.HoldRoute? {
      TaskRouteStart(s, t, c);
    }
  }

  /**
    While a key or a hand retune of a scanned slot is on the device, the body of no scanner step runs.
    What the task's own hold() may still do then is in `ScanOverride`.
   */
  lemma OverrideNeverRaced(ss: seq<Sys>, es: seq<Event>, n: nat, t: nat)
    requires IsRun(ss, es) && n < |ss| && Overriding(ss[n].handler) && t in ss[n].runners
    ensures !ss[n].runners[t].Body?
  {
    RunKeepsInv(ss, es, n);
  }

  /** In this event the scan task `t` begins a visit. */
  ghost predicate StartsVisit(s: Sys, s': Sys, t: nat) {
    && t in s.runners && s.runners[t].Top?
    && t in s'.runners && s'.runners[t].Wait? && s'.runners[t].work.Scanning?
  }

  // --- what one turn of the scan task can change ------------------------------------------------

  /**
    A turn of the scan task `t` touches no other task, leaves `tuned` behind, and gives up the
    scanner only by turning into its own terminal frame.
   */
  ghost predicate KeepsToItself(s: Sys, s': Sys, t: nat, tuned: Option<string>) {
    && s'.handler == s.handler && s'.started == s.started && s'.br == s.br
    && s'.frames == s.frames
    && (forall u :: u != t ==> (u in s'.runners <==> u in s.runners))
    && (forall u :: u != t && u in s.runners && u in s'.runners ==> s'.runners[u] == s.runners[u])
    && if t in s'.runners && s'.runners[t].Sending? then
         && s'.sc.task.None? && s.sc.task.Some?
         && s'.runners[t].frame == Frame(s.sc.task.value, Stopped, NamedRef(s.sc.(tuned := tuned)))
       else s'.sc.task == s.sc.task && s'.sc.tuned == tuned
  }

  /** ... and stays in its visit only with the hold generations unchanged. */
  ghost predicate TaskEffect(s: Sys, s': Sys, t: nat, tuned: Option<string>) {
    && KeepsToItself(s, s', t, tuned)
    && (t in s'.runners && InVisit(s'.runners[t]) ==>
          s'.sc.visitGen == s.sc.visitGen && s'.sc.holdGen == s.sc.holdGen)
  }

  /** ... and does not end inside the step lock. */
  ghost predicate FreeEffect(s: Sys, s': Sys, t: nat, tuned: Option<string>) {
    TaskEffect(s, s', t, tuned) && (t in s'.runners ==> !InLock(s'.runners[t]))
  }

  /** The tuned ref after a body: only an apply that returns changes it. */
  ghost function TunedAfter(s: Sys, work: Work, entry: Entry, c: Choice): Option<string> {
    if !work.Apply? || c.outcome.Raised? then s.sc.tuned
    else if c.outcome.Good? then Some(entry.ref) else None
  }

  lemma FinishEffect(s: Sys, t: nat)
    ensures FreeEffect(s, Finish(s, t), t, s.sc.tuned)
  {
  }

  lemma LeaveVisitEffect(s: Sys, t: nat, reachable: bool)
    ensures FreeEffect(s, LeaveVisit(s, t, reachable), t, s.sc.tuned)
  {
  }

  lemma HoldIfKeyedEffect(s: Sys, t: nat, r: Runner)
    requires r.Wait?
    ensures FreeEffect(s, HoldIfKeyed(s, t, r), t, s.sc.tuned)
  {
  }

  lemma NextPollEffect(s: Sys, t: nat, entry: Entry, hang: bool)
    ensures FreeEffect(s, NextPoll(s, t, entry, hang), t, s.sc.tuned)
  {
    LeaveVisitEffect(s, t, true);
  }

  lemma CarrierEffect(s: Sys, t: nat, work: Work, entry: Entry, c: Choice)
    requires work.Listen? || work.Poll?
    ensures FreeEffect(s, LeaveBody(s, t, work, entry, c), t, s.sc.tuned)
  {
    var s' := LeaveBody(s, t, work, entry, c);
    if s' == Finish(s, t) {
      FinishEffect(s, t);
    } else if s' == LeaveVisit(s, t, true) {
      LeaveVisitEffect(s, t, true);
    } else if s' == LeaveVisit(s, t, false) {
      LeaveVisitEffect(s, t, false);
    } else if work.Poll? && s' == NextPoll(s, t, entry, work.hang) {
      NextPollEffect(s, t, entry, work.hang);
    } else if work.Listen? && c.outcome.CarrierOn? {
      HoldIfKeyedEffect(s, t, Wait(RouteTx, entry));
    }
  }

  lemma ApplyEffect(s: Sys, t: nat, entry: Entry, c: Choice)
    ensures FreeEffect(s, LeaveBody(s, t, Apply, entry, c), t, TunedAfter(s, Apply, entry, c))
  {
    var tuned := s.(sc := s.sc.(tuned := TunedAfter(s, Apply, entry, c)));
    if c.outcome.Raised? {
      FinishEffect(s, t);
    } else if c.outcome.Updating? {
      FinishEffect(tuned, t);
    } else {
      LeaveVisitEffect(tuned, t, s.sc.skip && c.outcome.Good?);
    }
  }

  lemma LeaveBodyEffect(s: Sys, t: nat, work: Work, entry: Entry, c: Choice)
    ensures FreeEffect(s, LeaveBody(s, t, work, entry, c), t, TunedAfter(s, work, entry, c))
  {
    match work
    case Scanning =>
    case Apply => ApplyEffect(s, t, entry, c);
    case RouteTx =>
    case Announce(hang) => NextPollEffect(s, t, entry, hang);
    case _ => CarrierEffect(s, t, work, entry, c);
  }

  ghost function TunedAfterTurn(s: Sys, t: nat, c: Choice): Option<string>
    requires t in s.runners
  {
    if s.runners[t].Body? then TunedAfter(s, s.runners[t].work, s.runners[t].entry, c) else s.sc.tuned
  }

  /** In this turn the task's own hold() gets the step lock and sends the held frame. */
  ghost predicate ParksItself(s: Sys, t: nat)
    requires t in s.runners
  {
    s.runners[t].HoldWait? && s.sc.task.Some? && !s.sc.stopping
  }

  lemma TurnEffect(s: Sys, t: nat, drained: bool)
    requires Inv(s) && t in s.runners && s.runners[t].Top?
    ensures KeepsToItself(s, Turn(s, t, drained), t, s.sc.tuned)
    ensures !StartsVisit(s, Turn(s, t, drained), t) ==> TaskEffect(s, Turn(s, t, drained), t, s.sc.tuned)
  {
    FinishEffect(s, t);
  }

  lemma HeldFrameEffect(s: Sys, t: nat, pos: Option<nat>)
    ensures TaskEffect(s, RunnerHeld(s, t, pos), t, s.sc.tuned)
  {
    FinishEffect(s.(lock := None), t);
  }

  lemma LockedEffect(s: Sys, t: nat, c: Choice)
    requires Inv(s) && Enabled(s, RunnerGo(t, c)) && !ParksItself(s, t)
    requires s.runners[t].Parked? || s.runners[t].HoldWait? || s.runners[t].HoldRoute? || s.runners[t].Wait?
    ensures TaskEffect(s, RunnerStep(s, t, c), t, s.sc.tuned)
  {
    FinishEffect(s, t);
  }

  lemma TaskStep(s: Sys, t: nat, c: Choice)
    requires Inv(s) && Enabled(s, RunnerGo(t, c)) && !s.runners[t].Sending? && !ParksItself(s, t)
    ensures KeepsToItself(s, RunnerStep(s, t, c), t, TunedAfterTurn(s, t, c))
    ensures !StartsVisit(s, RunnerStep(s, t, c), t) ==>
              TaskEffect(s, RunnerStep(s, t, c), t, TunedAfterTurn(s, t, c))
  {
    match s.runners[t]
    case Top => TurnEffect(s, t, c.drained);
    case Body(work, entry) => LeaveBodyEffect(s.(lock := None), t, work, entry, c);
    case Sleep(_, _) => LeaveVisitEffect(s, t, true);
    case HoldEmit(pos) => HeldFrameEffect(s, t, pos);
    case _ => LockedEffect(s, t, c);
  }

  /** No event but its own turn or its cancellation moves a task. */
  lemma OnlyOwnTurnMoves(s: Sys, e: Event, t: nat)
    requires Inv(s) && Enabled(s, e) && t in s.runners && t in Step(s, e).runners
    requires Step(s, e).runners[t] != s.runners[t]
    ensures e.RunnerGo? && e.task == t
  {
    if e.RunnerGo? && e.task != t && !s.runners[e.task].Sending? && !ParksItself(s, e.task) {
      TaskStep(s, e.task, e.choice);
    }
  }

  // --- hold -----------------------------------------------------------------------------------

  /** In this event a hold() call sets the held flag. */
  ghost predicate SetsHeld(s: Sys, s': Sys) {
    !s.sc.held && s'.sc.held
  }

  ghost predicate HeldOrDone(sc: Scanner) {
    sc.held || sc.task.None?
  }

  lemma HeldVisit(s: Sys, t: nat, work: Work, entry: Entry, c: Choice)
    requires HeldOrDone(s.sc)
    ensures HeldOrDone(LeaveBody(s, t, work, entry, c).sc)
  {
  }

  lemma HeldTask(s: Sys, t: nat, c: Choice)
    requires t in s.runners && HeldOrDone(s.sc)
    ensures HeldOrDone(RunnerStep(s, t, c).sc)
  {
    if s.runners[t].Body? {
      HeldVisit(s.(lock := None), t, s.runners[t].work, s.runners[t].entry, c);
    }
  }

  lemma HeldHandler(s: Sys, pos: nat, ok: bool)
    requires HeldOrDone(s.sc) && HandlerStep(s, pos, ok).started == s.started
    ensures HeldOrDone(HandlerStep(s, pos, ok).sc)
  {
  }

  lemma HeldStep(s: Sys, e: Event)
    requires Enabled(s, e) && HeldOrDone(s.sc)
    requires !e.ResumeMsg? && !e.SkipMsg? && Step(s, e).started == s.started
    ensures HeldOrDone(Step(s, e).sc)
  {
    match e
    case RunnerGo(t, c) => HeldTask(s, t, c);
    case HandlerGo(pos, ok) => HeldHandler(s, pos, ok);
    case _ =>
  }

  lemma {:induction false} HeldLasts(ss: seq<Sys>, es: seq<Event>, i: nat, j: nat)
    requires IsRun(ss, es) && i < j < |ss| && SetsHeld(ss[i], ss[i + 1])
    requires forall k :: i < k < j ==> !es[k].ResumeMsg? && !es[k].SkipMsg?
    requires forall k :: i < k <= j ==> ss[k].started == ss[i + 1].started
    ensures ss[j].sc.held || ss[j].sc.task.None?
  {
    if i + 1 < j {
      HeldLasts(ss, es, i, j - 1);
      RunKeepsInv(ss, es, j - 1);
      assert ss[j - 1].started == ss[j].started;
      assert StepAt(ss, es, j - 1);
      HeldStep(ss[j - 1], es[j - 1]);
    }
  }

  /**
    Once the hold() that set the flag is past its wait for the step lock, no step body runs until
    resume, skip or a new scan.
   */
  lemma HoldQuiesces(ss: seq<Sys>, es: seq<Event>, i: nat, j: nat, t: nat)
    requires IsRun(ss, es) && i < j < |ss| && SetsHeld(ss[i], ss[i + 1])
    requires forall k :: i < k < j ==> !es[k].ResumeMsg? && !es[k].SkipMsg?
    requires forall k :: i < k <= j ==> ss[k].started == ss[i + 1].started
    requires !ss[j].handler.HoldingWait? && t in ss[j].runners
    ensures !ss[j].runners[t].Body?
  {
    HeldLasts(ss, es, i, j);
    RunKeepsInv(ss, es, j);
  }

  /** A visit of `t` under way began before the last hold. */
  ghost predicate Outdated(s: Sys, t: nat) {
    t in s.runners && InVisit(s.runners[t]) ==> s.sc.visitGen < s.sc.holdGen
  }

  lemma OutdatedTurn(s: Sys, t: nat, c: Choice)
    requires Inv(s) && Outdated(s, t) && Enabled(s, RunnerGo(t, c))
    requires !StartsVisit(s, RunnerStep(s, t, c), t)
    ensures Outdated(RunnerStep(s, t, c), t)
  {
    if !s.runners[t].Sending? && !ParksItself(s, t) {
      TaskStep(s, t, c);
    }
  }

  lemma OutdatedOther(s: Sys, t: nat, u: nat, c: Choice)
    requires Inv(s) && Outdated(s, t) && Enabled(s, RunnerGo(u, c)) && u != t
    ensures Outdated(RunnerStep(s, u, c), t)
  {
    if !s.runners[u].Sending? {
      assert t in s.runners ==> s.runners[t].Sending?;
      if !ParksItself(s, u) {
        TaskStep(s, u, c);
      }
    }
  }

  lemma OutdatedStep(s: Sys, e: Event, t: nat)
    requires Inv(s) && Outdated(s, t) && Enabled(s, e)
    requires e.RunnerGo? && e.task == t ==> !StartsVisit(s, Step(s, e), t)
    ensures Outdated(Step(s, e), t)
  {
    match e
    case RunnerGo(u, c) =>
      if u == t {
        OutdatedTurn(s, t, c);
      } else {
        OutdatedOther(s, t, u, c);
      }
    case HandlerGo(pos, ok) => OutdatedHandler(s, pos, ok, t);
    case _ =>
  }

  lemma OutdatedHandler(s: Sys, pos: nat, ok: bool, t: nat)
    requires Inv(s) && Outdated(s, t) && HandlerEnabled(s, pos, ok)
    ensures Outdated(HandlerStep(s, pos, ok), t)
  {
  }

  /** At `k` the scan task `t` begins a visit. */
  ghost predicate FreshVisitAt(ss: seq<Sys>, es: seq<Event>, t: nat, k: nat)
    requires |ss| == |es| + 1 && k < |es|
  {
    es[k].RunnerGo? && es[k].task == t && StartsVisit(ss[k], ss[k + 1], t)
  }

  lemma {:induction false} OutdatedLasts(ss: seq<Sys>, es: seq<Event>, i: nat, j: nat, t: nat)
    requires IsRun(ss, es) && i < j < |ss| && ss[i + 1].sc.held
    requires forall k :: i < k < j ==> !FreshVisitAt(ss, es, t, k)
    ensures Outdated(ss[j], t)
  {
    if i + 1 == j {
      RunKeepsInv(ss, es, j);
    } else {
      OutdatedLasts(ss, es, i, j - 1, t);
      RunKeepsInv(ss, es, j - 1);
      assert StepAt(ss, es, j - 1);
      assert !FreshVisitAt(ss, es, t, j - 1);
      OutdatedStep(ss[j - 1], es[j - 1], t);
    }
  }

  /**
    A visit begun before a hold never takes another step, however soon the scan is resumed: a
    step body that starts after the hold belongs to a visit of its task that began after it.
   */
  lemma StepNeedsFreshVisit(ss: seq<Sys>, es: seq<Event>, i: nat, j: nat, t: nat, work: Work)
    requires IsRun(ss, es) && i < j < |es| && SetsHeld(ss[i], ss[i + 1])
    requires StartsBody(ss[j], ss[j + 1], t, work)
    ensures exists k :: i < k < j && FreshVisitAt(ss, es, t, k)
  {
    RunKeepsInv(ss, es, j);
    assert StepAt(ss, es, j);
    OnlyOwnTurnMoves(ss[j], es[j], t);
    if forall k :: i < k < j ==> !FreshVisitAt(ss, es, t, k) {
      OutdatedLasts(ss, es, i, j, t);
      assert false;
    }
  }

  // --- terminal frames ------------------------------------------------------------------------

  /** How often `frames` ends the scan `id`. */
  ghost function StoppedFor(frames: seq<Frame>, id: nat): nat {
    if frames == [] then 0 else
      var last := frames[|frames| - 1];
      StoppedFor(frames[..|frames| - 1], id) + if last.kind.Stopped? && last.scan == id then 1 else 0
  }

  lemma StoppedForAppend(frames: seq<Frame>, f: Frame, id: nat)
    ensures StoppedFor(frames + [f], id) ==
            StoppedFor(frames, id) + if f.kind.Stopped? && f.scan == id then 1 else 0
  {
    assert (frames + [f])[..|frames|] == frames;
  }

  /** Terminal frames of scan `id` not yet sent: held by its task or by a stop(). */
  ghost function Unsent(s: Sys, id: nat): nat {
    (if id in s.runners && s.runners[id].Sending? then 1 else 0) +
    (if s.handler.StopSend? && s.handler.frame.scan == id then 1 else 0)
  }

  ghost function Ledger(s: Sys, id: nat): nat {
    StoppedFor(s.frames, id) + Unsent(s, id) + if s.sc.task == Some(id) then 1 else 0
  }

  /** Every unsent terminal frame carries its own scan's id; the ledger of a started scan is one. */
  ghost predicate FrameInv(s: Sys) {
    && (forall t :: t in s.runners && s.runners[t].Sending? ==>
                      s.runners[t].frame.kind.Stopped? && s.runners[t].frame.scan == t)
    && (s.handler.StopSend? ==> s.handler.frame.kind.Stopped? && s.handler.frame.scan < s.started)
    && (forall id: nat :: Ledger(s, id) == if id < s.started then 1 else 0)
  }

  lemma TaskLedger(s: Sys, s': Sys, t: nat)
    requires Inv(s) && FrameInv(s) && t in s.runners && !s.runners[t].Sending?
    requires exists tuned :: KeepsToItself(s, s', t, tuned)
    ensures FrameInv(s')
  {
    assert s.sc.task == Some(t);
    forall id: nat
      ensures Ledger(s', id) == Ledger(s, id)
    {
    }
  }

  /** Sending a frame moves it from unsent to sent. */
  lemma SendLedger(s: Sys, s': Sys, f: Frame)
    requires FrameInv(s) && s'.frames == s.frames + [f]
    requires s'.sc.task == s.sc.task && s'.started == s.started
    requires forall id: nat :: Unsent(s', id) ==
                               Unsent(s, id) - if f.kind.Stopped? && f.scan == id then 1 else 0
    ensures forall id: nat :: Ledger(s', id) == if id < s'.started then 1 else 0
  {
    forall id: nat
      ensures Ledger(s', id) == Ledger(s, id)
    {
      StoppedForAppend(s.frames, f, id);
    }
  }

  lemma TaskFrames(s: Sys, t: nat, c: Choice)
    requires Inv(s) && FrameInv(s) && Enabled(s, RunnerGo(t, c))
    ensures FrameInv(RunnerStep(s, t, c))
  {
    var s', r := RunnerStep(s, t, c), s.runners[t];
    if r.Sending? {
      SendLedger(s, s', r.frame);
    } else if ParksItself(s, t) {
      SendLedger(s, s', s'.frames[|s.frames|]);
    } else {
      TaskStep(s, t, c);
      TaskLedger(s, s', t);
    }
  }

  lemma StartLedger(s: Sys, start: Option<seq<Entry>>)
    requires TaskInv(s) && FrameInv(s) && s.sc.task.None? && !s.handler.StopSend?
    ensures FrameInv(StartNow(s, start))
  {
    var s' := StartNow(s, start);
    forall id: nat
      ensures Ledger(s', id) == if id < s'.started then 1 else 0
    {
      assert Ledger(s, id) == if id < s.started then 1 else 0;
    }
  }

  /** Handler moves that neither send nor stop nor start leave the ledger alone. */
  lemma SameLedger(s: Sys, s': Sys)
    requires FrameInv(s) && s'.frames == s.frames && s'.runners == s.runners
    requires s'.sc.task == s.sc.task && s'.started == s.started
    requires !s.handler.StopSend? && !s'.handler.StopSend?
    ensures FrameInv(s')
  {
    forall id: nat
      ensures Ledger(s', id) == Ledger(s, id)
    {
    }
  }

  lemma StopSendFrames(s: Sys, pos: nat, ok: bool)
    requires Inv(s) && FrameInv(s) && s.handler.StopSend?
    ensures FrameInv(HandlerStep(s, pos, ok))
  {
    var sent := s.(frames := s.frames + [s.handler.frame], handler := Ready);
    SendLedger(s, sent, s.handler.frame);
    StartLedger(sent, s.handler.start);
    assert HandlerStep(s, pos, ok) == StartNow(sent, s.handler.start);
  }

  lemma StopJoinFrames(s: Sys, pos: nat, ok: bool)
    requires Inv(s) && FrameInv(s) && HandlerEnabled(s, pos, ok) && s.handler.StopJoin?
    ensures FrameInv(HandlerStep(s, pos, ok))
  {
    forall id: nat
      ensures Ledger(HandlerStep(s, pos, ok), id) == Ledger(s, id)
    {
    }
  }

  lemma HandlerFrames(s: Sys, pos: nat, ok: bool)
    requires Inv(s) && FrameInv(s) && HandlerEnabled(s, pos, ok)
    ensures FrameInv(HandlerStep(s, pos, ok))
  {
    var s' := HandlerStep(s, pos, ok);
    if s.handler.StopSend? {
      StopSendFrames(s, pos, ok);
    } else if s.handler.StopJoin? {
      StopJoinFrames(s, pos, ok);
    } else if s.handler.HoldingWait? {
      HoldingWaitFrames(s, pos, ok);
    } else {
      QuietHandler(s, pos, ok);
      SameLedger(s, s');
    }
  }

  lemma QuietHandler(s: Sys, pos: nat, ok: bool)
    requires Inv(s) && HandlerEnabled(s, pos, ok)
    requires !s.handler.StopSend? && !s.handler.StopJoin? && !s.handler.HoldingWait?
    ensures var s' := HandlerStep(s, pos, ok);
            && s'.frames == s.frames && s'.runners == s.runners && s'.sc.task == s.sc.task
            && s'.started == s.started && !s'.handler.StopSend?
  {
  }

  lemma HoldingWaitFrames(s: Sys, pos: nat, ok: bool)
    requires Inv(s) && FrameInv(s) && s.handler.HoldingWait?
    ensures FrameInv(HandlerStep(s, pos, ok))
  {
    var s' := HandlerStep(s, pos, ok);
    if s'.handler.HoldingEmit? {
      SendLedger(s, s', s'.frames[|s.frames|]);
    } else {
      SameLedger(s, s');
    }
  }

  lemma MessageFrames(s: Sys, e: Event)
    requires Inv(s) && FrameInv(s) && Enabled(s, e) && s.handler.Ready?
    requires !e.HandlerGo? && !e.RunnerGo? && !e.Cancel? && !e.BrokerGo?
    ensures FrameInv(Message(s, e))
  {
    if e.Start? && s.sc.task.None? {
      StartLedger(s, Some(e.list));
    } else {
      SameLedger(s, Message(s, e));
    }
  }

  lemma FrameStep(s: Sys, e: Event)
    requires Inv(s) && FrameInv(s) && Enabled(s, e)
    ensures FrameInv(Step(s, e))
  {
    match e
    case RunnerGo(t, c) => TaskFrames(s, t, c);
    case HandlerGo(pos, ok) => HandlerFrames(s, pos, ok);
    case Cancel(t) => CancelFrames(s, t);
    case BrokerGo(b) => BrokerFrames(s, B.Step(s.br, b));
    case _ => MessageFrames(s, e);
  }

  lemma BrokerFrames(s: Sys, br: B.State)
    requires FrameInv(s)
    ensures FrameInv(s.(br := br))
  {
    forall id: nat
      ensures Ledger(s.(br := br), id) == Ledger(s, id)
    {
    }
  }

  lemma CancelFrames(s: Sys, t: nat)
    requires Inv(s) && FrameInv(s) && Enabled(s, Cancel(t))
    ensures FrameInv(Drop(s, t))
  {
    forall id: nat
      ensures Ledger(Drop(s, t), id) == Ledger(s, id)
    {
      assert s.sc.task == Some(t) && !s.runners[t].Sending?;
    }
  }

  lemma {:induction false} RunKeepsFrames(ss: seq<Sys>, es: seq<Event>, n: nat)
    requires IsRun(ss, es) && n < |ss|
    ensures FrameInv(ss[n])
  {
    if n > 0 {
      RunKeepsFrames(ss, es, n - 1);
      RunKeepsInv(ss, es, n - 1);
      assert StepAt(ss, es, n - 1);
      FrameStep(ss[n - 1], es[n - 1]);
    }
  }

  /**
    A started scan never sends two terminal frames, and has sent its one exactly when it is over
    and neither its task nor a stop() is still sending.
   */
  lemma OneStoppedFramePerScan(ss: seq<Sys>, es: seq<Event>, n: nat, id: nat)
    requires IsRun(ss, es) && n < |ss| && id < ss[n].started
    ensures StoppedFor(ss[n].frames, id) <= 1
    ensures StoppedFor(ss[n].frames, id) == 1 <==>
            && ss[n].sc.task != Some(id)
            && !(id in ss[n].runners && ss[n].runners[id].Sending?)
            && !(ss[n].handler.StopSend? && ss[n].handler.frame.scan == id)
  {
    RunKeepsFrames(ss, es, n);
    assert Ledger(ss[n], id) == 1;
  }

  /** The task of a finished scan never changes the scanner that a later scan uses. */
  lemma FinishedTaskIsInert(ss: seq<Sys>, es: seq<Event>, n: nat)
    requires IsRun(ss, es) && n < |es| && (es[n].RunnerGo? || es[n].Cancel?)
    requires ss[n].sc.task != Some(es[n].task)
    ensures ss[n + 1].sc == ss[n].sc && ss[n + 1].lock == ss[n].lock
  {
    RunKeepsInv(ss, es, n);
    assert StepAt(ss, es, n);
  }

  /** While a scan runs its list is not empty and its index names an entry, at every await. */
  lemma ListStaysInRange(ss: seq<Sys>, es: seq<Event>, n: nat)
    requires IsRun(ss, es) && n < |ss| && ss[n].sc.task.Some?
    ensures ss[n].sc.list.index < |ss[n].sc.list.entries|
  {
    RunKeepsInv(ss, es, n);
  }

  // --- the broker inside the system ---------------------------------------------------------------

  lemma BrokerStep(s: Sys, e: Event)
    requires Inv(s) && Enabled(s, e)
    ensures Step(s, e).br == s.br ||
            exists b :: B.Enabled(s.br, b) && Step(s, e).br == B.Step(s.br, b)
  {
    if e.RunnerGo? && !s.runners[e.task].Sending? && !ParksItself(s, e.task) {
      TaskStep(s, e.task, e.choice);
    } else if e.HandlerGo? && s.handler.Keying? {
      assert B.Enabled(s.br, B.KeyDone(e.pos, e.ok));
    }
  }

  /** What the broker goes through in a run of the system is a run of the broker. */
  lemma {:induction false} BrokerRun(ss: seq<Sys>, es: seq<Event>, n: nat)
    returns (bs: seq<B.State>, bes: seq<B.Event>)
    requires IsRun(ss, es) && n < |ss|
    ensures B.IsRun(bs, bes) && bs[|bes|] == ss[n].br
    ensures forall k :: 0 <= k <= n ==> ss[k].br in bs
  {
    if n == 0 {
      bs, bes := [ss[0].br], [];
    } else {
      bs, bes := BrokerRun(ss, es, n - 1);
      RunKeepsInv(ss, es, n - 1);
      assert StepAt(ss, es, n - 1);
      BrokerStep(ss[n - 1], es[n - 1]);
      if ss[n].br != ss[n - 1].br {
        var b :| B.Enabled(ss[n - 1].br, b) && ss[n].br == B.Step(ss[n - 1].br, b);
        BrokerGrows(bs, bes, b);
        bs, bes := bs + [ss[n].br], bes + [b];
      }
    }
  }

  lemma BrokerGrows(bs: seq<B.State>, bes: seq<B.Event>, b: B.Event)
    requires B.IsRun(bs, bes) && B.Enabled(bs[|bes|], b)
    ensures var next := bs + [B.Step(bs[|bes|], b)];
            B.IsRun(next, bes + [b]) && next[|bes| + 1] in next && forall s :: s in bs ==> s in next
  {
  }
}

/** What the scan visits are entries of its list, and a list's refs name its entries. */
module ScanEntries {
  import opened Options
  import opened ScanList
  import opened ScanSystem
  import opened ScanSafety
  import opened ScanTheorems
  import B = PttBroker

  ghost predicate Starts(h: Handler) {
    h.StopWait? || h.StopJoin? || h.StopSend?
  }

  /** Every list given to the scanner has distinct refs. */
  ghost predicate UniqueLists(s: Sys) {
    && Unique(s.sc.list.entries) && (s.sc.list.pending.Some? ==> Unique(s.sc.list.pending.value))
    && (Starts(s.handler) && s.handler.start.Some? ==> Unique(s.handler.start.value))
  }

  /** A step that runs, or a visit that is not outdated. */
  ghost predicate Binding(s: Sys, r: Runner) {
    r.Body? || (InVisit(r) && s.sc.visitGen == s.sc.holdGen)
  }

  /** ... is of an entry of the list. */
  ghost predicate VisitsListed(s: Sys) {
    forall t :: t in s.runners && Binding(s, s.runners[t]) ==> s.runners[t].entry in s.sc.list.entries
  }

  /** A hand retune that did not hold the scan is on no slot of it. */
  ghost predicate RetuneApart(s: Sys) {
    s.handler.OnDevice? && !s.handler.scanned ==> !Scanned(s.sc, s.handler.addr.slot)
  }

  ghost predicate RadioInv(s: Sys) {
    UniqueLists(s) && VisitsListed(s) && RetuneApart(s)
  }

  /** The list stays, adopts the one that waited, or goes with the scan. */
  ghost predicate ListKept(l: Cursor, l': Cursor) {
    || (l'.entries == l.entries && l'.pending == l.pending)
    || (l.pending.Some? && l'.entries == l.pending.value && l'.pending.None?)
    || l' == NO_LIST
  }

  /** A turn of `t` keeps the list and stays in a visit only of the entry it was in. */
  ghost predicate VisitEffect(s: Sys, s': Sys, t: nat, entry: Entry) {
    && ListKept(s.sc.list, s'.sc.list)
    && (t in s'.runners && InVisit(s'.runners[t]) ==> s'.sc.list == s.sc.list && s'.runners[t].entry == entry)
    && (t in s'.runners ==> !s'.runners[t].Body?)
  }

  lemma FinishVisits(s: Sys, t: nat, entry: Entry)
    ensures VisitEffect(s, Finish(s, t), t, entry)
  {
  }

  lemma LeaveVisits(s: Sys, t: nat, reachable: bool, entry: Entry)
    ensures VisitEffect(s, LeaveVisit(s, t, reachable), t, entry)
  {
  }

  lemma CarrierVisits(s: Sys, t: nat, work: Work, entry: Entry, c: Choice)
    requires work.Listen? || work.Poll?
    ensures VisitEffect(s, LeaveBody(s, t, work, entry, c), t, entry)
  {
    var s' := LeaveBody(s, t, work, entry, c);
    if s' == Finish(s, t) {
      FinishVisits(s, t, entry);
    } else if s' == LeaveVisit(s, t, true) {
      LeaveVisits(s, t, true, entry);
    } else if s' == LeaveVisit(s, t, false) {
      LeaveVisits(s, t, false, entry);
    } else if work.Poll? && s' == NextPoll(s, t, entry, work.hang) {
      LeaveVisits(s, t, true, entry);
    } else if work.Listen? && c.outcome.CarrierOn? {
      assert s' == HoldIfKeyed(s, t, Wait(RouteTx, entry));
    }
  }

  lemma ApplyVisits(s: Sys, t: nat, entry: Entry, c: Choice)
    ensures VisitEffect(s, LeaveBody(s, t, Apply, entry, c), t, entry)
  {
    var tuned := s.(sc := s.sc.(tuned := TunedAfter(s, Apply, entry, c)));
    FinishVisits(s, t, entry);
    FinishVisits(tuned, t, entry);
    LeaveVisits(tuned, t, c.outcome.Good?, entry);
  }

  lemma BodyVisits(s: Sys, t: nat, work: Work, entry: Entry, c: Choice)
    ensures VisitEffect(s, LeaveBody(s, t, work, entry, c), t, entry)
  {
    match work
    case Apply => ApplyVisits(s, t, entry, c);
    case Announce(_) => LeaveVisits(s, t, true, entry);
    case Scanning =>
    case RouteTx =>
    case _ => CarrierVisits(s, t, work, entry, c);
  }

  /** One turn of the scan task: it stays in its visit, or begins one of an entry of the list. */
  lemma TurnVisits(s: Sys, t: nat, c: Choice)
    requires Inv(s) && Enabled(s, RunnerGo(t, c))
    ensures var s' := RunnerStep(s, t, c);
            && ListKept(s.sc.list, s'.sc.list)
            && (t in s'.runners && InVisit(s'.runners[t]) ==>
                  && s'.sc.list == s.sc.list
                  && if InVisit(s.runners[t]) then s'.runners[t].entry == s.runners[t].entry
                     else s'.runners[t].entry in s.sc.list.entries)
            && (t in s'.runners && s'.runners[t].Body? ==> s.sc.visitGen == s.sc.holdGen)
  {
    match s.runners[t]
    case Body(work, entry) => BodyVisits(s.(lock := None), t, work, entry, c);
    case Sleep(_, entry) => LeaveVisits(s, t, true, entry);
    case Top => TopVisits(s, t, c);
    case Wait(_, entry) => FinishVisits(s, t, entry);
    case HoldEmit(_) => HeldVisits(s, t, c);
    case _ => OutsideVisits(s, t, c);
  }

  lemma TopVisits(s: Sys, t: nat, c: Choice)
    requires Inv(s) && t in s.runners && s.runners[t].Top?
    ensures var s' := RunnerStep(s, t, c);
            && ListKept(s.sc.list, s'.sc.list)
            && (t in s'.runners && InVisit(s'.runners[t]) ==>
                  s'.sc.list == s.sc.list && s'.runners[t].entry in s.sc.list.entries)
            && (t in s'.runners ==> !s'.runners[t].Body?)
  {
  }

  lemma HeldVisits(s: Sys, t: nat, c: Choice)
    requires t in s.runners && s.runners[t].HoldEmit?
    ensures var s' := RunnerStep(s, t, c);
            ListKept(s.sc.list, s'.sc.list) && (t in s'.runners ==> !InVisit(s'.runners[t]))
  {
  }

  lemma OutsideVisits(s: Sys, t: nat, c: Choice)
    requires Inv(s) && t in s.runners
    requires s.runners[t].Parked? || s.runners[t].HoldWait? || s.runners[t].HoldRoute? || s.runners[t].Sending?
    ensures var s' := RunnerStep(s, t, c);
            ListKept(s.sc.list, s'.sc.list) && (t in s'.runners ==> !InVisit(s'.runners[t]))
  {
  }

  lemma ScannedLess(sc: Scanner, sc': Scanner, slot: int)
    requires !Scanned(sc, slot) && ListKept(sc.list, sc'.list) && (sc'.task.Some? ==> sc.task.Some?)
    ensures !Scanned(sc', slot)
  {
  }

  lemma RunnerEntries(s: Sys, t: nat, c: Choice)
    requires Inv(s) && RadioInv(s) && Enabled(s, RunnerGo(t, c))
    ensures RadioInv(RunnerStep(s, t, c))
  {
    var s' := RunnerStep(s, t, c);
    if s.runners[t].Sending? {
      assert s'.sc == s.sc && s'.handler == s.handler;
    } else {
      TurnVisits(s, t, c);
      TurnFrame(s, t, c);
      if s.handler.OnDevice? && !s.handler.scanned {
        ScannedLess(s.sc, s'.sc, s.handler.addr.slot);
      }
    }
  }

  /** What a turn of the driving task leaves alone. */
  lemma TurnFrame(s: Sys, t: nat, c: Choice)
    requires Inv(s) && Enabled(s, RunnerGo(t, c)) && !s.runners[t].Sending?
    ensures var s' := RunnerStep(s, t, c);
            && s'.handler == s.handler && s.sc.task == Some(t)
            && (forall u :: u in s'.runners && u != t ==> s'.runners[u].Sending?)
            && (t in s'.runners && InVisit(s'.runners[t]) && InVisit(s.runners[t]) ==>
                  s'.sc.visitGen == s.sc.visitGen && s'.sc.holdGen == s.sc.holdGen)
  {
    if !ParksItself(s, t) {
      TaskStep(s, t, c);
    }
  }

  lemma HandlerEntries(s: Sys, pos: nat, ok: bool)
    requires Inv(s) && RadioInv(s) && HandlerEnabled(s, pos, ok)
    ensures RadioInv(HandlerStep(s, pos, ok))
  {
    match s.handler
    case HoldingWait(_, next) => ParkEntries(s, pos, ok);
    case HoldingEmit(_, _, next) => ProceedEntries(s.(lock := None), next);
    case HoldingRoute(entry, next) =>
      ProceedEntries(s.(sc := s.sc.(routed := Some(entry.ref)), lock := None), next);
    case StopSend(frame, start) => StartEntries(s.(frames := s.frames + [frame]), start);
    case _ =>
  }

  /** The handler goes on after its hold; a retune of a scanned slot has held the scan. */
  lemma ProceedEntries(s: Sys, next: Next)
    requires UniqueLists(s) && VisitsListed(s) && !Starts(s.handler)
    ensures RadioInv(Proceed(s, next))
  {
  }

  lemma ParkEntries(s: Sys, pos: nat, ok: bool)
    requires RadioInv(s) && s.handler.HoldingWait?
    ensures RadioInv(HandlerStep(s, pos, ok))
  {
    ProceedEntries(s, s.handler.next);
  }

  lemma StartEntries(s: Sys, start: Option<seq<Entry>>)
    requires UniqueLists(s) && (start.Some? ==> Unique(start.value)) && VisitsListed(s)
    requires forall t :: t in s.runners ==> s.runners[t].Sending?
    ensures RadioInv(StartNow(s, start))
  {
  }

  lemma MessageEntries(s: Sys, e: Event)
    requires Inv(s) && RadioInv(s) && Enabled(s, e)
    requires !e.HandlerGo? && !e.RunnerGo? && !e.Cancel? && !e.BrokerGo?
    ensures RadioInv(Message(s, e))
  {
    match e
    case Ptt(a, on) => HoldEntries(s, Some(a), KeyUp(a));
    case HoldMsg => HoldEntries(s, None, Done);
    case Manual(a) => HoldEntries(s, None, Device(a));
    case Start(list) => StopEntries(s, Some(list));
    case Update(_) => StopEntries(s, None);
    case StopMsg => StopEntries(s, None);
    case _ => ControlEntries(s, e);
  }

  lemma HoldEntries(s: Sys, keyed: Option<B.Addr>, next: Next)
    requires Inv(s) && RadioInv(s) && s.handler.Ready?
    ensures RadioInv(HandlerHold(s, keyed, next))
  {
    ProceedEntries(s, next);
  }

  lemma StopEntries(s: Sys, start: Option<seq<Entry>>)
    requires Inv(s) && RadioInv(s) && s.handler.Ready? && (start.Some? ==> Unique(start.value))
    ensures RadioInv(HandlerStop(s, start))
  {
    if s.sc.task.None? {
      StartEntries(s, start);
    }
  }

  lemma ControlEntries(s: Sys, e: Event)
    requires Inv(s) && RadioInv(s) && s.handler.Ready? && (e.Keepalive? || e.ResumeMsg? || e.SkipMsg?)
    ensures RadioInv(Message(s, e))
  {
  }

  lemma EntriesStep(s: Sys, e: Event)
    requires Inv(s) && RadioInv(s) && Enabled(s, e)
    ensures RadioInv(Step(s, e))
  {
    match e
    case HandlerGo(pos, ok) => HandlerEntries(s, pos, ok);
    case RunnerGo(t, c) => RunnerEntries(s, t, c);
    case Cancel(_) =>
    case BrokerGo(_) =>
    case _ => MessageEntries(s, e);
  }

  lemma {:induction false} RunKeepsEntries(ss: seq<Sys>, es: seq<Event>, n: nat)
    requires IsRun(ss, es) && n < |ss|
    ensures RadioInv(ss[n])
  {
    if n > 0 {
      RunKeepsEntries(ss, es, n - 1);
      RunKeepsInv(ss, es, n - 1);
      assert StepAt(ss, es, n - 1);
      EntriesStep(ss[n - 1], es[n - 1]);
    }
  }

  /**
    The scanner never tunes a module under a hand retune: while one is on the device, of whatever
    slot, no apply of an entry on that slot runs.
   */
  lemma RetuneNeverRaced(ss: seq<Sys>, es: seq<Event>, n: nat, t: nat)
    requires IsRun(ss, es) && n < |ss| && ss[n].handler.OnDevice?
    requires t in ss[n].runners && ss[n].runners[t].Body?
    ensures ss[n].runners[t].entry.addr.slot != ss[n].handler.addr.slot
  {
    RunKeepsInv(ss, es, n);
    RunKeepsEntries(ss, es, n);
    var list := ss[n].sc.list.entries;
    var i :| 0 <= i < |list| && list[i] == ss[n].runners[t].entry;
  }
}

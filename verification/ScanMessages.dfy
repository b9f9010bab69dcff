/**
  What becomes of each message: keys and retunes reach the device, the broker is told of every key, a scan
  starts on the list it was given, and a skip, a resume or an update moves it where it should.
 */
module ScanMessages {
  import opened Options
  import opened ScanList
  import opened ScanSystem
  import opened ScanSafety
  import opened ScanTheorems
  import opened ScanEntries
  import opened ScanLookup
  import B = PttBroker

  // --- keys and retunes --------------------------------------------------------------------------------

  /** What a key or retune message makes the handler do, once any hold is through. */
  ghost function Wanted(e: Event): Next {
    match e
    case Ptt(a, _) => KeyUp(a)
    case Manual(a) => Device(a)
    case _ => Done
  }

  /** The handler is at the device with the key or the retune. */
  ghost predicate AtDevice(h: Handler, e: Event) {
    match e
    case Ptt(a, on) => h == Keying(a, on)
    case Manual(a) => h.OnDevice? && h.addr == a
    case _ => false
  }

  ghost predicate Serving(h: Handler, e: Event) {
    AtDevice(h, e) || (Holding(h) && h.next == Wanted(e) && (e.Ptt? ==> e.on))
  }

  lemma ServingStarts(s: Sys, e: Event)
    requires Inv(s) && Enabled(s, e) && (e.Ptt? || e.Manual?)
    ensures Serving(Step(s, e).handler, e)
  {
  }

  lemma ServingStep(s: Sys, e: Event, f: Event)
    requires Inv(s) && Enabled(s, f) && (e.Ptt? || e.Manual?) && Serving(s.handler, e)
    ensures var h := Step(s, f).handler;
            || Serving(h, e) || h.Dead?
            || (h.Ready? && f.HandlerGo? && AtDevice(s.handler, e))
  {
    if f.RunnerGo? && !s.runners[f.task].Sending? && !ParksItself(s, f.task) {
      TaskStep(s, f.task, f.choice);
    }
  }

  lemma {:induction false} ServedUntil(ss: seq<Sys>, es: seq<Event>, k: nat, m: nat)
    requires IsRun(ss, es) && k < m <= |es| && (es[k].Ptt? || es[k].Manual?)
    requires forall j :: k < j <= m ==> !ss[j].handler.Ready? && !ss[j].handler.Dead?
    ensures Serving(ss[m].handler, es[k])
  {
    RunKeepsInv(ss, es, m - 1);
    assert StepAt(ss, es, m - 1);
    if m == k + 1 {
      ServingStarts(ss[k], es[k]);
    } else {
      ServedUntil(ss, es, k, m - 1);
      ServingStep(ss[m - 1], es[k], es[m - 1]);
    }
  }

  /**
    Every key, unkey and hand retune that is asked for goes to the device before the handler takes the
    next message, unless the connection is lost first.
   */
  lemma MessageReachesDevice(ss: seq<Sys>, es: seq<Event>, k: nat, m: nat)
    requires IsRun(ss, es) && k < m <= |es| && (es[k].Ptt? || es[k].Manual?)
    requires ss[m].handler.Ready? && forall j :: k < j < m ==> !ss[j].handler.Ready? && !ss[j].handler.Dead?
    ensures k + 1 < m && AtDevice(ss[m - 1].handler, es[k]) && es[m - 1].HandlerGo?
  {
    NotAtOnce(ss, es, k);
    ServedUntil(ss, es, k, m - 1);
    LastServed(ss, es, es[k], m);
  }

  lemma NotAtOnce(ss: seq<Sys>, es: seq<Event>, k: nat)
    requires IsRun(ss, es) && k < |es| && (es[k].Ptt? || es[k].Manual?)
    ensures !ss[k + 1].handler.Ready?
  {
    RunKeepsInv(ss, es, k);
    assert StepAt(ss, es, k);
    ServingStarts(ss[k], es[k]);
  }

  lemma LastServed(ss: seq<Sys>, es: seq<Event>, e: Event, m: nat)
    requires IsRun(ss, es) && 0 < m <= |es| && (e.Ptt? || e.Manual?)
    requires Serving(ss[m - 1].handler, e) && ss[m].handler.Ready?
    ensures AtDevice(ss[m - 1].handler, e) && es[m - 1].HandlerGo?
  {
    RunKeepsInv(ss, es, m - 1);
    assert StepAt(ss, es, m - 1);
    ServingStep(ss[m - 1], e, es[m - 1]);
  }

  /** What the broker is told in this event, if anything. */
  ghost function Told(s: Sys, e: Event, s': Sys): Option<B.Event> {
    if e.BrokerGo? then Some(e.e)
    else if e.Keepalive? && B.Enabled(s.br, B.Keepalive(e.addr)) then Some(B.Keepalive(e.addr))
    else if e.HandlerGo? && s.handler.Keying? then Some(B.KeyDone(e.pos, e.ok))
    else if !s.handler.Keying? && s'.handler.Keying? then Some(B.KeyStart(s'.handler.addr, s'.handler.on))
    else None
  }

  /** The broker is told of every key as it goes out and comes back, of every keepalive, and of nothing else. */
  lemma BrokerIsTold(ss: seq<Sys>, es: seq<Event>, n: nat)
    requires IsRun(ss, es) && n < |es|
    ensures Tells(ss[n], es[n], ss[n + 1])
  {
    RunKeepsInv(ss, es, n);
    assert StepAt(ss, es, n);
    match es[n]
    case RunnerGo(t, c) => ToldNothing(ss[n], t, c);
    case HandlerGo(pos, ok) => ToldByHandler(ss[n], pos, ok);
    case _ => ToldByMessage(ss[n], es[n]);
  }

  ghost predicate Tells(s: Sys, e: Event, s': Sys) {
    var b := Told(s, e, s');
    if b.None? then s'.br == s.br else B.Enabled(s.br, b.value) && s'.br == B.Step(s.br, b.value)
  }

  lemma ToldNothing(s: Sys, t: nat, c: Choice)
    requires Inv(s) && Enabled(s, RunnerGo(t, c))
    ensures Tells(s, RunnerGo(t, c), RunnerStep(s, t, c))
  {
    if !s.runners[t].Sending? && !ParksItself(s, t) {
      TaskStep(s, t, c);
    }
  }

  lemma ToldByHandler(s: Sys, pos: nat, ok: bool)
    requires Inv(s) && HandlerEnabled(s, pos, ok)
    ensures Tells(s, HandlerGo(pos, ok), HandlerStep(s, pos, ok))
  {
  }

  lemma ToldByMessage(s: Sys, e: Event)
    requires Inv(s) && Enabled(s, e) && !e.RunnerGo? && !e.HandlerGo?
    ensures Tells(s, e, Step(s, e))
  {
  }

  // --- the list ------------------------------------------------------------------------------------------

  /** In this event a new scan begins. */
  ghost predicate Begins(s: Sys, s': Sys) {
    s'.started != s.started
  }

  ghost function StartOf(h: Handler): Option<seq<Entry>> {
    if h.StopWait? || h.StopJoin? || h.StopSend? then h.start else None
  }

  lemma BeginsOn(s: Sys, e: Event)
    requires Inv(s) && Enabled(s, e)
    ensures var s' := Step(s, e);
            && (Begins(s, s') ==>
                  && (e.Start? || StartOf(s.handler).Some?)
                  && s'.sc == Fresh(s.started, if e.Start? then e.list else StartOf(s.handler).value)
                  && s'.started == s.started + 1 && s.started in s'.runners && s'.runners[s.started].Top?)
            && (StartOf(s'.handler).Some? ==>
                  StartOf(s'.handler) == if e.Start? then Some(e.list) else StartOf(s.handler))
  {
    if e.RunnerGo? && !s.runners[e.task].Sending? && !ParksItself(s, e.task) {
      TaskStep(s, e.task, e.choice);
    }
  }

  lemma StartBefore(ss: seq<Sys>, es: seq<Event>, n: nat)
    requires IsRun(ss, es) && n <= |es| && StartOf(ss[n].handler).Some?
    ensures n > 0
    ensures StartOf(ss[n].handler) == if es[n - 1].Start? then Some(es[n - 1].list) else StartOf(ss[n - 1].handler)
  {
    RunKeepsInv(ss, es, n - 1);
    assert StepAt(ss, es, n - 1);
    BeginsOn(ss[n - 1], es[n - 1]);
  }

  lemma {:induction false} StartIsRemembered(ss: seq<Sys>, es: seq<Event>, n: nat) returns (j: nat)
    requires IsRun(ss, es) && n <= |es| && StartOf(ss[n].handler).Some?
    ensures j < n && es[j] == Start(StartOf(ss[n].handler).value) && forall i :: j < i < n ==> !es[i].Start?
  {
    StartBefore(ss, es, n);
    if es[n - 1].Start? {
      j := n - 1;
    } else {
      j := StartIsRemembered(ss, es, n - 1);
    }
  }

  /** A scan begins only on the list of the last start message, at its first entry, with nothing held, tuned or routed. */
  lemma ScanBeginsOnItsList(ss: seq<Sys>, es: seq<Event>, n: nat) returns (j: nat)
    requires IsRun(ss, es) && n < |es| && Begins(ss[n], ss[n + 1])
    ensures j <= n && es[j].Start? && forall i :: j < i <= n ==> !es[i].Start?
    ensures ss[n + 1].sc == Fresh(ss[n].started, es[j].list)
  {
    RunKeepsInv(ss, es, n);
    assert StepAt(ss, es, n);
    BeginsOn(ss[n], es[n]);
    if es[n].Start? {
      j := n;
    } else {
      j := StartIsRemembered(ss, es, n);
    }
  }

  /** A list that waits is the one of the last update. */
  lemma {:induction false} WaitingIsLastUpdate(ss: seq<Sys>, es: seq<Event>, n: nat) returns (j: nat)
    requires IsRun(ss, es) && n <= |es| && ss[n].sc.list.pending.Some?
    ensures j < n && es[j] == Update(ss[n].sc.list.pending.value)
    ensures forall i :: j < i < n ==> !(es[i].Update? && es[i].list != [])
  {
    RunKeepsInv(ss, es, n - 1);
    assert StepAt(ss, es, n - 1);
    PendingStep(ss[n - 1], es[n - 1]);
    if es[n - 1].Update? && es[n - 1].list != [] {
      j := n - 1;
    } else {
      j := WaitingIsLastUpdate(ss, es, n - 1);
    }
  }

  lemma PendingStep(s: Sys, e: Event)
    requires Inv(s) && Enabled(s, e) && Step(s, e).sc.list.pending.Some?
    ensures Step(s, e).sc.list.pending ==
            if e.Update? && e.list != [] then Some(e.list) else s.sc.list.pending
  {
    if e.RunnerGo? {
      TurnVisits(s, e.task, e.choice);
    }
  }

  /** The entries of a scan change only to those of a list that waited. */
  lemma EntriesComeFromUpdate(ss: seq<Sys>, es: seq<Event>, n: nat) returns (j: nat)
    requires IsRun(ss, es) && n < |es| && ss[n + 1].started == ss[n].started && ss[n + 1].sc.task.Some?
    requires ss[n + 1].sc.list.entries != ss[n].sc.list.entries
    ensures j < n && es[j] == Update(ss[n + 1].sc.list.entries) && ss[n + 1].sc.list.pending.None?
    ensures forall i :: j < i < n ==> !(es[i].Update? && es[i].list != [])
  {
    RunKeepsInv(ss, es, n);
    assert StepAt(ss, es, n);
    EntriesStep(ss[n], es[n]);
    j := WaitingIsLastUpdate(ss, es, n);
  }

  lemma EntriesStep(s: Sys, e: Event)
    requires Inv(s) && Enabled(s, e) && Step(s, e).started == s.started && Step(s, e).sc.task.Some?
    ensures var l, l' := s.sc.list, Step(s, e).sc.list;
            l'.entries == l.entries || (l.pending == Some(l'.entries) && l'.pending.None?)
  {
    if e.RunnerGo? {
      RunKeepsList(s, e.task, e.choice);
    }
  }

  lemma RunKeepsList(s: Sys, t: nat, c: Choice)
    requires Inv(s) && Enabled(s, RunnerGo(t, c)) && RunnerStep(s, t, c).sc.task.Some?
    ensures var l, l' := s.sc.list, RunnerStep(s, t, c).sc.list;
            l'.entries == l.entries || (l.pending == Some(l'.entries) && l'.pending.None?)
  {
    TurnVisits(s, t, c);
    if RunnerStep(s, t, c).sc.list == NO_LIST {
      RunnerKeeps(s, t, c);
    }
  }

  // --- where a scan goes on -----------------------------------------------------------------------------------

  /** The cursor after a step boundary, `offset` on from the current entry. */
  ghost predicate GoesOn(l: Cursor, l': Cursor, offset: nat)
    requires InRange(l)
  {
    && l'.pending.None?
    && match l.pending
       case None =>
         && l'.entries == l.entries
         && (offset == 0 ==> l'.index == l.index)
         && (offset == 1 ==> l'.index == if l.index + 1 < |l.entries| then l.index + 1 else 0)
       case Some(list) =>
         && l'.entries == list && l'.failStreak == 0
         && var p := FindRef(list, l.entries[l.index].ref);
            if p.None? then l.index < |list| ==> l'.index == l.index
            else
              && (offset == 0 ==> l'.index == p.value)
              && (offset == 1 ==> l'.index == if p.value + 1 < |list| then p.value + 1 else 0)
  }

  lemma NextAdopts(l: Cursor, offset: nat)
    requires InRange(l) && l.pending.Some? && offset <= 1
    ensures GoesOn(l, NextIndex(l, offset), offset)
  {
    var list := l.pending.value;
    var p, n := FindRef(list, l.entries[l.index].ref), |list|;
    if p.Some? {
      var i := p.value + offset;
      WrapIsModulo(i, n);
      assert NextIndex(l, offset) == Cursor(list, None, Wrap(i, n), 0);
    } else if l.index < n {
      WrapIsModulo(l.index, n);
      assert NextIndex(l, offset) == Cursor(list, None, Wrap(l.index, n), 0);
    }
  }

  lemma NextGoesOn(l: Cursor, offset: nat)
    requires InRange(l) && offset <= 1
    ensures GoesOn(l, NextIndex(l, offset), offset)
  {
    if l.pending.Some? {
      NextAdopts(l, offset);
    } else {
      WrapIsModulo(l.index + offset, |l.entries|);
      assert NextIndex(l, offset) == l.(index := Wrap(l.index + offset, |l.entries|));
    }
  }

  /** A skip of a held scan resumes it with the entry after the held one; a skip of a running one is noted. */
  lemma SkipMovesOn(ss: seq<Sys>, es: seq<Event>, n: nat)
    requires IsRun(ss, es) && n < |es| && es[n].SkipMsg? && ss[n].sc.task.Some?
    ensures if ss[n].sc.held then
              InRange(ss[n].sc.list) && !ss[n + 1].sc.held && ss[n + 1].sc.resume
              && GoesOn(ss[n].sc.list, ss[n + 1].sc.list, 1)
            else ss[n + 1].sc == ss[n].sc.(skip := true)
  {
    RunKeepsInv(ss, es, n);
    assert StepAt(ss, es, n);
    NextGoesOn(ss[n].sc.list, 1);
  }

  /** A resumed task goes on with the held entry, and a resume does nothing else. */
  lemma ResumeGoesOn(ss: seq<Sys>, es: seq<Event>, n: nat, t: nat)
    requires IsRun(ss, es) && n < |es|
    ensures es[n].ResumeMsg? ==>
              ss[n + 1].sc == if ss[n].sc.held then ss[n].sc.(held := false, resume := true) else ss[n].sc
    ensures TurnAt(es, t, n) && t in ss[n].runners && ss[n].runners[t].Parked? && ss[n].sc.resume ==>
              && InRange(ss[n].sc.list) && GoesOn(ss[n].sc.list, ss[n + 1].sc.list, 0)
              && t in ss[n + 1].runners && ss[n + 1].runners[t].Top?
  {
    RunKeepsInv(ss, es, n);
    assert StepAt(ss, es, n);
    if ss[n].sc.task.Some? {
      NextGoesOn(ss[n].sc.list, 0);
    }
  }

  /** A hold parks on the position its held frame names. */
  lemma HoldParksOn(ss: seq<Sys>, es: seq<Event>, n: nat, t: nat, p: nat)
    requires IsRun(ss, es) && n < |es| && (HandlerEmits(ss, es, n, p) || TaskEmits(ss, es, n, t, p))
    ensures ss[n + 1].sc.list == ss[n].sc.list.(index := p)
  {
    RunKeepsInv(ss, es, n);
    assert StepAt(ss, es, n);
  }

  lemma EndVisitGoesOn(l: Cursor, reachable: bool)
    requires InRange(l) && EndVisit(l, reachable).Some?
    ensures GoesOn(l, EndVisit(l, reachable).value, 1)
  {
    NextGoesOn(l.(failStreak := if reachable then 0 else l.failStreak + 1), 1);
  }

  lemma LeaveVisitGoesOn(s: Sys, t: nat, reachable: bool)
    requires InRange(s.sc.list) && s.sc.task.Some? && !s.sc.stopping
    ensures var s' := LeaveVisit(s, t, reachable);
            t in s'.runners && s'.runners[t].Top? ==> GoesOn(s.sc.list, s'.sc.list, 1)
  {
    if EndVisit(s.sc.list, reachable).Some? {
      EndVisitGoesOn(s.sc.list, reachable);
    }
  }

  lemma BodyGoesOn(s: Sys, t: nat, work: Work, x: Entry, c: Choice)
    requires InRange(s.sc.list) && s.sc.task.Some? && !s.sc.held && !s.sc.stopping
    ensures var s' := LeaveBody(s, t, work, x, c);
            t in s'.runners && s'.runners[t].Top? ==> GoesOn(s.sc.list, s'.sc.list, 1)
  {
    if work.Apply? && c.outcome.Raised? {
      assert LeaveBody(s, t, work, x, c) == Finish(s, t);
    } else if work.Apply? {
      LeaveVisitGoesOn(s.(sc := s.sc.(tuned := if c.outcome.Good? then Some(x.ref) else None)), t, c.outcome.Good?);
    } else {
      LeaveVisitGoesOn(s, t, true);
      LeaveVisitGoesOn(s, t, false);
    }
  }

  /** A visit that ends by itself goes on with the next entry, of the list that waits if there is one. */
  lemma VisitEndGoesOn(ss: seq<Sys>, es: seq<Event>, n: nat, t: nat)
    requires IsRun(ss, es) && TurnAt(es, t, n) && t in ss[n].runners && !ss[n].sc.held && !ss[n].sc.stopping
    requires ss[n].runners[t].Body? || ss[n].runners[t].Sleep?
    requires t in ss[n + 1].runners && ss[n + 1].runners[t].Top?
    ensures InRange(ss[n].sc.list) && GoesOn(ss[n].sc.list, ss[n + 1].sc.list, 1)
  {
    RunKeepsInv(ss, es, n);
    assert StepAt(ss, es, n);
    var s, r := ss[n], ss[n].runners[t];
    if r.Body? {
      BodyGoesOn(s.(lock := None), t, r.work, r.entry, es[n].choice);
    } else {
      LeaveVisitGoesOn(s, t, true);
    }
  }

  // --- hold, stop and start ---------------------------------------------------------------------------------

  /** A hold message, a key or a hand retune of a scanned slot sets the held flag of a running scan. */
  lemma HoldIsSet(ss: seq<Sys>, es: seq<Event>, n: nat)
    requires IsRun(ss, es) && n < |es| && ss[n].sc.task.Some?
    requires es[n].HoldMsg? || (es[n].Ptt? && es[n].on) || (es[n].Manual? && Scanned(ss[n].sc, es[n].addr.slot))
    ensures ss[n + 1].sc.held && ss[n + 1].sc.task == ss[n].sc.task
  {
    RunKeepsInv(ss, es, n);
    assert StepAt(ss, es, n);
  }

  /** The hold that gets the step lock of a scan that is not stopping sends the held frame. */
  ghost predicate TakesHold(s: Sys, e: Event) {
    && s.sc.task.Some? && !s.sc.stopping
    && ((e.HandlerGo? && s.handler.HoldingWait?)
        || (e.RunnerGo? && e.task in s.runners && s.runners[e.task].HoldWait?))
  }

  lemma HoldAnnounces(ss: seq<Sys>, es: seq<Event>, n: nat)
    requires IsRun(ss, es) && n < |es| && TakesHold(ss[n], es[n])
    ensures ss[n + 1].frames == ss[n].frames + [Frame(ss[n].sc.task.value, Held, NamedRef(ss[n].sc))]
    ensures ss[n + 1].lock == Some(if es[n].HandlerGo? then ByHandler else ByRunner(es[n].task))
  {
    assert StepAt(ss, es, n);
  }

  /** A list update for a running scan waits to be adopted. */
  lemma UpdateWaits(ss: seq<Sys>, es: seq<Event>, n: nat)
    requires IsRun(ss, es) && n < |es| && es[n].Update? && es[n].list != [] && ss[n].sc.task.Some?
    ensures ss[n + 1].sc == ss[n].sc.(list := ss[n].sc.list.(pending := Some(es[n].list)))
  {
    assert StepAt(ss, es, n);
  }

  /** The message ends the running scan: a stop, an empty list or another start. */
  predicate EndsRunning(e: Event) {
    e.StopMsg? || (e.Update? && e.list == []) || e.Start?
  }

  ghost predicate Stopping(h: Handler, t: nat, start: Option<seq<Entry>>) {
    || ((h.StopWait? || h.StopJoin?) && h.task == t && h.start == start)
    || (h.StopSend? && h.frame.scan == t && h.start == start)
  }

  /** The last step of a stop: its terminal frame is out, and the next scan starts if one is to. */
  ghost predicate Served(s: Sys, s': Sys, t: nat, start: Option<seq<Entry>>) {
    && s.handler.StopSend? && s.handler.frame.scan == t && s'.handler.Ready? && s.started <= s'.started
    && s'.runners - {s.started} == s.runners - {s.started}
    && if start.Some? then s'.sc == Fresh(s.started, start.value) else s'.sc.task.None?
  }

  lemma StoppingStarts(s: Sys, e: Event, t: nat)
    requires Inv(s) && Enabled(s, e) && EndsRunning(e) && s.sc.task == Some(t)
    ensures Stopping(Step(s, e).handler, t, if e.Start? then Some(e.list) else None)
  {
  }

  lemma StoppingStep(s: Sys, e: Event, t: nat, start: Option<seq<Entry>>)
    requires Inv(s) && Enabled(s, e) && Stopping(s.handler, t, start)
    ensures var s' := Step(s, e);
            || Stopping(s'.handler, t, start)
            || (e.HandlerGo? && Served(s, s', t, start))
  {
    if e.RunnerGo? && !s.runners[e.task].Sending? && !ParksItself(s, e.task) {
      TaskStep(s, e.task, e.choice);
    }
  }

  lemma {:induction false} StoppingUntil(ss: seq<Sys>, es: seq<Event>, k: nat, m: nat, t: nat)
    requires IsRun(ss, es) && k < m <= |es| && EndsRunning(es[k]) && ss[k].sc.task == Some(t)
    requires forall j :: k < j <= m ==> !ss[j].handler.Ready?
    ensures Stopping(ss[m].handler, t, if es[k].Start? then Some(es[k].list) else None)
  {
    RunKeepsInv(ss, es, m - 1);
    assert StepAt(ss, es, m - 1);
    if m == k + 1 {
      StoppingStarts(ss[k], es[k], t);
    } else {
      StoppingUntil(ss, es, k, m - 1, t);
      StoppingStep(ss[m - 1], es[m - 1], t, if es[k].Start? then Some(es[k].list) else None);
    }
  }

  lemma NotReadyYet(ss: seq<Sys>, es: seq<Event>, k: nat, t: nat)
    requires IsRun(ss, es) && k < |es| && EndsRunning(es[k]) && ss[k].sc.task == Some(t)
    ensures !ss[k + 1].handler.Ready?
  {
    RunKeepsInv(ss, es, k);
    assert StepAt(ss, es, k);
    StoppingStarts(ss[k], es[k], t);
  }

  /**
    Before the handler takes the next message the running scan is over with its terminal frame sent, and a
    start has its own scan running on its list.
   */
  lemma StopIsServed(ss: seq<Sys>, es: seq<Event>, k: nat, m: nat, t: nat)
    requires IsRun(ss, es) && k < m <= |es| && EndsRunning(es[k]) && ss[k].sc.task == Some(t)
    requires ss[m].handler.Ready? && forall j :: k < j < m ==> !ss[j].handler.Ready?
    ensures ss[m].sc.task != Some(t) && StoppedFor(ss[m].frames, t) == 1
    ensures if es[k].Start? then ss[m].sc == Fresh(ss[m - 1].started, es[k].list) else ss[m].sc.task.None?
  {
    var start := if es[k].Start? then Some(es[k].list) else None;
    NotReadyYet(ss, es, k, t);
    StoppingUntil(ss, es, k, m - 1, t);
    LastStopped(ss, es, m - 1, t, start);
    RunKeepsInv(ss, es, m - 1);
    RunKeepsFrames(ss, es, m - 1);
    RunKeepsFrames(ss, es, m);
    LastFrameGoes(ss[m - 1], ss[m], t, start);
  }

  lemma LastStopped(ss: seq<Sys>, es: seq<Event>, n: nat, t: nat, start: Option<seq<Entry>>)
    requires IsRun(ss, es) && n < |es| && Stopping(ss[n].handler, t, start) && ss[n + 1].handler.Ready?
    ensures Served(ss[n], ss[n + 1], t, start)
  {
    RunKeepsInv(ss, es, n);
    assert StepAt(ss, es, n);
    var s, e, s' := ss[n], es[n], ss[n + 1];
    assert Enabled(s, e) && s' == Step(s, e);
    StoppingEnds(s, e, s', t, start);
  }

  lemma StoppingEnds(s: Sys, e: Event, s': Sys, t: nat, start: Option<seq<Entry>>)
    requires Inv(s) && Enabled(s, e) && s' == Step(s, e) && Stopping(s.handler, t, start) && s'.handler.Ready?
    ensures Served(s, s', t, start)
  {
    StoppingStep(s, e, t, start);
  }

  lemma LastFrameGoes(s: Sys, s': Sys, t: nat, start: Option<seq<Entry>>)
    requires Inv(s) && FrameInv(s) && FrameInv(s') && Served(s, s', t, start)
    ensures s'.sc.task != Some(t) && StoppedFor(s'.frames, t) == 1
  {
    assert Ledger(s, t) == 1 && t < s.started;
    assert t in s'.runners - {s.started} <==> t in s.runners - {s.started};
    assert Ledger(s', t) == 1;
  }

  /** A start with no scan running begins its own at once. */
  lemma StartBegins(ss: seq<Sys>, es: seq<Event>, n: nat)
    requires IsRun(ss, es) && n < |es| && es[n].Start? && ss[n].sc.task.None?
    ensures ss[n + 1].sc == Fresh(ss[n].started, es[n].list) && ss[n + 1].handler.Ready?
    ensures ss[n].started in ss[n + 1].runners && ss[n + 1].runners[ss[n].started].Top?
  {
    assert StepAt(ss, es, n);
  }
}

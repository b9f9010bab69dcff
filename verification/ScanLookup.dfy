/**
  `hold` computes the tuned position, awaits the held frame and then indexes `_entries` with that
  position again.  A list adopted during the await makes the position stale: past its end the
  lookup raises, before it the lookup may find another entry.  Here is exactly when.
 */
module ScanLookup {
  import opened Options
  import opened ScanList
  import opened ScanSystem
  import opened ScanSafety
  import opened ScanTheorems
  import opened ScanEntries
  import B = PttBroker

  /** The lookup at position `p` raises. */
  ghost predicate Raises(sc: Scanner, p: nat) {
    sc.routed != sc.tuned && |sc.list.entries| <= p
  }

  // --- the handler's hold ------------------------------------------------------------------------

  /** At `n` the handler's hold() has the step lock and sends the held frame for position `p`. */
  ghost predicate HandlerEmits(ss: seq<Sys>, es: seq<Event>, n: nat, p: nat)
    requires |ss| == |es| + 1 && n < |es|
  {
    && es[n].HandlerGo? && ss[n].handler.HoldingWait?
    && ss[n + 1].handler.HoldingEmit? && ss[n + 1].handler.pos == Some(p)
  }

  /** The scan task sleeps in its listen window, was told to skip, and a list waits to be adopted. */
  ghost predicate WillAdopt(s: Sys) {
    && s.sc.skip && s.sc.list.pending.Some? && Driven(s)
    && s.runners[s.sc.task.value].Sleep? && !s.runners[s.sc.task.value].next.Poll?
  }

  ghost predicate TurnAt(es: seq<Event>, t: nat, k: nat) {
    k < |es| && es[k].RunnerGo? && es[k].task == t
  }

  /** The task took a turn between `n` and `m`. */
  ghost predicate TurnIn(es: seq<Event>, t: nat, n: nat, m: nat) {
    exists k: nat :: n < k < m && TurnAt(es, t, k)
  }

  /** A task drives the scan. */
  ghost predicate Driven(s: Sys) {
    s.sc.task.Some? && s.sc.task.value in s.runners
  }

  /** What the scanner can have come to since the held frame at `s0`. */
  ghost predicate Since(s0: Sys, s: Sys, turned: bool)
    requires Driven(s0)
  {
    var t := s0.sc.task.value;
    && s.handler == s0.handler
    && if s.sc.task.None? then s.sc == IDLE else
         && s.sc.task == s0.sc.task && s.sc.tuned == s0.sc.tuned && s.sc.routed == s0.sc.routed
         && s.sc.skip == s0.sc.skip && t in s.runners
         && if turned && WillAdopt(s0) then
              && s.sc.list.entries == s0.sc.list.pending.value && s.sc.list.pending.None?
              && (s.runners[t].Top? || s.runners[t].Parked?)
            else
              && s.sc.list.entries == s0.sc.list.entries && s.sc.list.pending == s0.sc.list.pending
              && if turned then !WillAdopt(s) else s.runners[t] == s0.runners[t]
  }

  lemma SinceSleep(s0: Sys, s: Sys, turned: bool, c: Choice)
    requires Inv(s) && Driven(s0) && s.sc.task == s0.sc.task && Since(s0, s, turned)
    requires s.runners[s0.sc.task.value].Sleep?
    ensures Since(s0, RunnerStep(s, s0.sc.task.value, c), true)
  {
    var t := s0.sc.task.value;
    var s' := RunnerStep(s, t, c);
    if !s.runners[t].next.Poll? && s.sc.skip {
      assert EndVisit(s.sc.list, true).Some?;
      assert s' == Put(s.(sc := s.sc.(list := EndVisit(s.sc.list, true).value)), t, Top);
    }
  }

  lemma SinceParked(s0: Sys, s: Sys, turned: bool, c: Choice)
    requires Inv(s) && Driven(s0) && s.sc.task == s0.sc.task && Since(s0, s, turned)
    requires s.runners[s0.sc.task.value].Top? || s.runners[s0.sc.task.value].Parked?
    requires s.sc.held && !s.sc.stopping
    ensures Since(s0, RunnerStep(s, s0.sc.task.value, c), true)
  {
  }

  lemma SinceTurn(s0: Sys, s: Sys, turned: bool, c: Choice)
    requires Inv(s) && Driven(s0) && s.sc.task == s0.sc.task && Since(s0, s, turned)
    requires s.handler.HoldingEmit? && Enabled(s, RunnerGo(s0.sc.task.value, c))
    ensures Since(s0, RunnerStep(s, s0.sc.task.value, c), true)
  {
    var r := s.runners[s0.sc.task.value];
    assert r.Top? || r.Parked? || r.Sleep?;
    if r.Sleep? {
      SinceSleep(s0, s, turned, c);
    } else {
      SinceParked(s0, s, turned, c);
    }
  }

  lemma SinceStep(s0: Sys, s: Sys, turned: bool, e: Event)
    requires Inv(s) && Driven(s0) && Since(s0, s, turned) && s.handler.HoldingEmit?
    requires Enabled(s, e) && !e.HandlerGo?
    ensures Since(s0, Step(s, e), turned || (e.RunnerGo? && e.task == s0.sc.task.value))
  {
    if e.RunnerGo? {
      if s.sc.task == Some(e.task) {
        SinceTurn(s0, s, turned, e.choice);
      } else {
        assert s.runners[e.task].Sending?;
      }
    }
  }

  lemma TurnInNext(es: seq<Event>, t: nat, n: nat, m: nat)
    requires n < m < |es|
    ensures TurnIn(es, t, n, m + 1) <==> TurnIn(es, t, n, m) || TurnAt(es, t, m)
  {
  }

  ghost predicate NoHandlerTurn(es: seq<Event>, n: nat, m: nat) {
    forall k :: n < k < m && k < |es| ==> !es[k].HandlerGo?
  }

  lemma {:induction false} SinceHeldFrame(ss: seq<Sys>, es: seq<Event>, n: nat, p: nat, m: nat)
    requires IsRun(ss, es) && n < m <= |es| && HandlerEmits(ss, es, n, p) && NoHandlerTurn(es, n, m)
    ensures Driven(ss[n + 1]) && Since(ss[n + 1], ss[m], TurnIn(es, ss[n + 1].sc.task.value, n, m))
  {
    assert StepAt(ss, es, n);
    RunKeepsInv(ss, es, n + 1);
    var s0 := ss[n + 1];
    if m > n + 1 {
      SinceHeldFrame(ss, es, n, p, m - 1);
      RunKeepsInv(ss, es, m - 1);
      assert StepAt(ss, es, m - 1);
      TurnInNext(es, s0.sc.task.value, n, m - 1);
      SinceStep(s0, ss[m - 1], TurnIn(es, s0.sc.task.value, n, m - 1), es[m - 1]);
    }
  }

  /** The list the scan will have adopted by `m`, if any, with the task's turn in between. */
  ghost predicate Adopts(ss: seq<Sys>, es: seq<Event>, n: nat, m: nat)
    requires |ss| == |es| + 1 && n < m <= |es| && ss[n + 1].sc.task.Some?
  {
    WillAdopt(ss[n + 1]) && TurnIn(es, ss[n + 1].sc.task.value, n, m) && ss[m].sc.task.Some?
  }

  /**
    In every run, at the handler's next turn after its held frame: the lookup raises, and the
    connection with its key is lost, if and only if at the held frame a list no longer than the
    position was waiting, the scan task was in its listen sleep with a skip noted, and the task took
    a turn since without the scan ending.
   */
  lemma HandlerDiesIff(ss: seq<Sys>, es: seq<Event>, n: nat, p: nat, m: nat)
    requires IsRun(ss, es) && n < m < |es| && HandlerEmits(ss, es, n, p)
    requires NoHandlerTurn(es, n, m) && es[m].HandlerGo?
    ensures var s0 := ss[n + 1];
            && Driven(s0)
            && (ss[m + 1].handler.Dead? <==>
                  Adopts(ss, es, n, m) && s0.sc.routed != s0.sc.tuned && |s0.sc.list.pending.value| <= p)
  {
    SinceHeldFrame(ss, es, n, p, m);
    RunKeepsInv(ss, es, m);
    RunKeepsInv(ss, es, n);
    assert StepAt(ss, es, m) && StepAt(ss, es, n);
    HeldTurn(ss[m], es[m].pos, es[m].ok, p);
  }

  /** The handler's turn after its held frame. */
  lemma HeldTurn(s: Sys, pos: nat, ok: bool, p: nat)
    requires Inv(s) && s.handler.HoldingEmit? && s.handler.pos == Some(p)
    ensures HandlerStep(s, pos, ok).handler.Dead? <==> Raises(s.sc, p)
    ensures HandlerStep(s, pos, ok).handler.HoldingRoute? ==>
              p < |s.sc.list.entries| && HandlerStep(s, pos, ok).handler.entry == s.sc.list.entries[p]
    ensures HandlerStep(s, pos, ok).handler.HoldingRoute? <==>
              && s.sc.routed != s.sc.tuned && p < |s.sc.list.entries|
              && (s.handler.keyed == Some(s.sc.list.entries[p].addr)
                  || (s.handler.keyed.None? && !B.PttActive(s.br)))
  {
  }

  /** The position in the held frame is that of the tuned entry. */
  lemma EmittedPosition(s: Sys, pos: nat, ok: bool, p: nat)
    requires s.handler.HoldingWait? && HandlerStep(s, pos, ok).handler.HoldingEmit?
    requires HandlerStep(s, pos, ok).handler.pos == Some(p)
    ensures var s' := HandlerStep(s, pos, ok);
            && p < |s'.sc.list.entries| && Some(s'.sc.list.entries[p].ref) == s'.sc.tuned
  {
  }

  /** Every held frame the handler waits on was sent by its own last turn. */
  lemma {:induction false} EmittedBefore(ss: seq<Sys>, es: seq<Event>, m: nat) returns (n: nat)
    requires IsRun(ss, es) && m <= |es| && ss[m].handler.HoldingEmit? && ss[m].handler.pos.Some?
    ensures n < m && HandlerEmits(ss, es, n, ss[m].handler.pos.value) && NoHandlerTurn(es, n, m)
  {
    assert StepAt(ss, es, m - 1);
    RunKeepsInv(ss, es, m - 1);
    if es[m - 1].HandlerGo? {
      EntersEmit(ss[m - 1], es[m - 1].pos, es[m - 1].ok);
      n := m - 1;
    } else {
      OnlyHandlerMoves(ss[m - 1], es[m - 1]);
      n := EmittedBefore(ss, es, m - 1);
    }
  }

  lemma EntersEmit(s: Sys, pos: nat, ok: bool)
    requires HandlerEnabled(s, pos, ok) && HandlerStep(s, pos, ok).handler.HoldingEmit?
    ensures s.handler.HoldingWait?
  {
  }

  lemma OnlyHandlerMoves(s: Sys, e: Event)
    requires Inv(s) && Enabled(s, e) && !e.HandlerGo? && Step(s, e).handler.HoldingEmit?
    ensures s.handler == Step(s, e).handler
  {
    if e.RunnerGo? && !s.runners[e.task].Sending? && !ParksItself(s, e.task) {
      TaskStep(s, e.task, e.choice);
    }
  }

  lemma OnlyHeldTurnsDie(s: Sys, e: Event)
    requires Inv(s) && Enabled(s, e) && !s.handler.Dead? && Step(s, e).handler.Dead?
    ensures e.HandlerGo? && s.handler.HoldingEmit? && s.handler.pos.Some?
  {
    if e.RunnerGo? && !s.runners[e.task].Sending? && !ParksItself(s, e.task) {
      TaskStep(s, e.task, e.choice);
    }
  }

  /** The handler's held frame at `n` for position `p` and its turn at `m` lose the connection. */
  ghost predicate Loses(ss: seq<Sys>, es: seq<Event>, n: nat, p: nat, m: nat)
    requires |ss| == |es| + 1 && m < |es|
  {
    && n < m && HandlerEmits(ss, es, n, p) && NoHandlerTurn(es, n, m) && Driven(ss[n + 1])
    && Adopts(ss, es, n, m) && ss[n + 1].sc.routed != ss[n + 1].sc.tuned
    && |ss[n + 1].sc.list.pending.value| <= p
  }

  /**
    Over every run: an exception in the modelled handler ends the connection at `m` for this reason and
    no other.  Device commands always answer here; one that raises is not modelled.
   */
  lemma ConnectionLostIff(ss: seq<Sys>, es: seq<Event>, m: nat)
    requires IsRun(ss, es) && m < |es| && !ss[m].handler.Dead?
    ensures ss[m + 1].handler.Dead? <==> es[m].HandlerGo? && exists n: nat, p: nat :: Loses(ss, es, n, p, m)
  {
    assert StepAt(ss, es, m);
    RunKeepsInv(ss, es, m);
    if ss[m + 1].handler.Dead? {
      OnlyHeldTurnsDie(ss[m], es[m]);
      var n := EmittedBefore(ss, es, m);
      HandlerDiesIff(ss, es, n, ss[m].handler.pos.value, m);
      assert Loses(ss, es, n, ss[m].handler.pos.value, m);
    }
    if n: nat, p: nat :| es[m].HandlerGo? && Loses(ss, es, n, p, m) {
      HandlerDiesIff(ss, es, n, p, m);
    }
  }

  lemma NonePendingStep(s: Sys, e: Event)
    requires Inv(s) && s.sc.list.pending.None? && Enabled(s, e) && !e.Update?
    ensures Step(s, e).sc.list.pending.None?
  {
    if e.RunnerGo? {
      TurnVisits(s, e.task, e.choice);
    }
  }

  /** In a run without list updates no list ever waits, and no exception ends the connection. */
  lemma {:induction false} NoUpdateNeverDies(ss: seq<Sys>, es: seq<Event>, n: nat)
    requires IsRun(ss, es) && n < |ss|
    requires forall k :: 0 <= k < n ==> !es[k].Update?
    ensures forall k :: 0 <= k <= n ==> ss[k].sc.list.pending.None?
    ensures !ss[n].handler.Dead?
  {
    if n > 0 {
      NoUpdateNeverDies(ss, es, n - 1);
      assert StepAt(ss, es, n - 1);
      RunKeepsInv(ss, es, n - 1);
      NonePendingStep(ss[n - 1], es[n - 1]);
      ConnectionLostIff(ss, es, n - 1);
    }
  }

  /** The condition can come true from every held frame that meets it: two more turns are enough. */
  lemma GuardedHoldDies(ss: seq<Sys>, es: seq<Event>, n: nat, p: nat, c: Choice)
    returns (ss': seq<Sys>, es': seq<Event>)
    requires IsRun(ss, es) && |es| == n + 1 && HandlerEmits(ss, es, n, p) && Driven(ss[n + 1])
    requires WillAdopt(ss[n + 1]) && ss[n + 1].sc.routed != ss[n + 1].sc.tuned
    requires |ss[n + 1].sc.list.pending.value| <= p
    ensures IsRun(ss', es') && |es'| == n + 3 && ss <= ss' && es <= es' && ss'[n + 3].handler.Dead?
  {
    var s0, t := ss[n + 1], ss[n + 1].sc.task.value;
    RunKeepsInv(ss, es, n + 1);
    AdoptsInOneTurn(s0, c);
    var ss1, es1 := Grow(ss, es, RunnerGo(t, c));
    ss', es' := Grow(ss1, es1, HandlerGo(0, true));
    assert es'[n] == es[n] && ss'[n] == ss[n] && ss'[n + 1] == s0;
    assert TurnAt(es', t, n + 1) && es'[n + 2].HandlerGo?;
    HandlerDiesIff(ss', es', n, p, n + 2);
  }

  lemma AdoptsInOneTurn(s: Sys, c: Choice)
    requires Inv(s) && WillAdopt(s) && s.handler.HoldingEmit?
    ensures var e := RunnerGo(s.sc.task.value, c);
            Enabled(s, e) && Step(s, e).handler == s.handler && Step(s, e).sc.task.Some?
  {
  }

  lemma Grow(ss: seq<Sys>, es: seq<Event>, e: Event) returns (ss': seq<Sys>, es': seq<Event>)
    requires IsRun(ss, es) && Enabled(ss[|es|], e)
    ensures IsRun(ss', es') && ss' == ss + [Step(ss[|es|], e)] && es' == es + [e]
  {
    ss', es' := ss + [Step(ss[|es|], e)], es + [e];
    forall k | 0 <= k < |es'|
      ensures StepAt(ss', es', k)
    {
      assert k < |es| ==> StepAt(ss, es, k);
    }
  }

  // --- the scan task's own hold ----------------------------------------------------------------------

  /** At `n` the scan task's own hold() sends the held frame for position `p`. */
  ghost predicate TaskEmits(ss: seq<Sys>, es: seq<Event>, n: nat, t: nat, p: nat)
    requires |ss| == |es| + 1 && n < |es|
  {
    && TurnAt(es, t, n) && t in ss[n].runners && ss[n].runners[t].HoldWait?
    && t in ss[n + 1].runners && ss[n + 1].runners[t] == HoldEmit(Some(p))
  }

  /** In this event a skip of the held entry adopts a waiting list. */
  ghost predicate SkipAdopts(s: Sys, e: Event) {
    e == SkipMsg && s.sc.task.Some? && s.sc.held && s.sc.list.pending.Some?
  }

  ghost predicate SkipsAt(ss: seq<Sys>, es: seq<Event>, k: nat)
    requires |ss| == |es| + 1
  {
    k < |es| && SkipAdopts(ss[k], es[k])
  }

  /** What the scanner can have come to since the task's held frame at `s0`. */
  ghost predicate SinceOwn(s0: Sys, s: Sys, t: nat, p: nat, adopted: Option<seq<Entry>>) {
    && s.sc.task == Some(t) && t in s.runners && s.runners[t] == HoldEmit(Some(p))
    && s.sc.tuned == s0.sc.tuned && s.sc.routed == s0.sc.routed
    && s.sc.list.entries == (if adopted.Some? then adopted.value else s0.sc.list.entries)
    && (adopted.Some? && s.sc.held ==> s.handler.HoldingWait?)
  }

  lemma SinceOwnMessage(s0: Sys, s: Sys, t: nat, p: nat, adopted: Option<seq<Entry>>, e: Event)
    requires Inv(s) && SinceOwn(s0, s, t, p, adopted) && Enabled(s, e)
    requires !e.HandlerGo? && !e.RunnerGo? && !e.Cancel? && !e.BrokerGo?
    ensures SkipAdopts(s, e) ==> adopted.None?
    ensures SinceOwn(s0, Message(s, e), t, p, if SkipAdopts(s, e) then s.sc.list.pending else adopted)
  {
  }

  lemma SinceOwnStep(s0: Sys, s: Sys, t: nat, p: nat, adopted: Option<seq<Entry>>, e: Event)
    requires Inv(s) && SinceOwn(s0, s, t, p, adopted) && Enabled(s, e) && !(e.RunnerGo? && e.task == t)
    ensures SkipAdopts(s, e) ==> adopted.None?
    ensures SinceOwn(s0, Step(s, e), t, p, if SkipAdopts(s, e) then s.sc.list.pending else adopted)
  {
    match e
    case RunnerGo(u, _) => assert s.runners[u].Sending?;
    case HandlerGo(pos, ok) => SinceOwnHandler(s0, s, t, p, adopted, pos, ok);
    case Cancel(_) =>
    case BrokerGo(_) =>
    case _ => SinceOwnMessage(s0, s, t, p, adopted, e);
  }

  lemma SinceOwnHandler(s0: Sys, s: Sys, t: nat, p: nat, adopted: Option<seq<Entry>>, pos: nat, ok: bool)
    requires Inv(s) && SinceOwn(s0, s, t, p, adopted) && HandlerEnabled(s, pos, ok)
    ensures SinceOwn(s0, HandlerStep(s, pos, ok), t, p, adopted)
  {
    assert !s.handler.HoldingEmit? && !s.handler.HoldingRoute? && s.lock.Some?;
  }

  /** The list adopted by a skip between `n` and `m`; there is at most one. */
  ghost function AdoptedIn(ss: seq<Sys>, es: seq<Event>, n: nat, m: nat): Option<seq<Entry>>
    requires |ss| == |es| + 1 && n < m <= |es|
    decreases m
  {
    if m == n + 1 then None
    else if SkipsAt(ss, es, m - 1) then ss[m - 1].sc.list.pending
    else AdoptedIn(ss, es, n, m - 1)
  }

  ghost predicate NoTurn(es: seq<Event>, t: nat, n: nat, m: nat) {
    forall k: nat :: n < k < m ==> !TurnAt(es, t, k)
  }

  lemma {:induction false} SinceOwnFrame(ss: seq<Sys>, es: seq<Event>, n: nat, t: nat, p: nat, m: nat)
    requires IsRun(ss, es) && n < m <= |es| && TaskEmits(ss, es, n, t, p) && NoTurn(es, t, n, m)
    ensures SinceOwn(ss[n + 1], ss[m], t, p, AdoptedIn(ss, es, n, m))
    ensures m < |es| && SkipsAt(ss, es, m) ==> AdoptedIn(ss, es, n, m).None?
  {
    if m == n + 1 {
      assert StepAt(ss, es, n);
      RunKeepsInv(ss, es, n);
    } else {
      SinceOwnFrame(ss, es, n, t, p, m - 1);
      RunKeepsInv(ss, es, m - 1);
      assert StepAt(ss, es, m - 1);
      assert !TurnAt(es, t, m - 1);
      SinceOwnStep(ss[n + 1], ss[m - 1], t, p, AdoptedIn(ss, es, n, m - 1), es[m - 1]);
    }
    if m < |es| && SkipsAt(ss, es, m) {
      RunKeepsInv(ss, es, m);
      assert StepAt(ss, es, m);
    }
  }

  lemma {:induction false} AdoptedOnce(ss: seq<Sys>, es: seq<Event>, n: nat, t: nat, p: nat, m: nat)
    requires IsRun(ss, es) && n < m <= |es| && TaskEmits(ss, es, n, t, p) && NoTurn(es, t, n, m)
    ensures forall k: nat :: n < k < m && SkipsAt(ss, es, k) ==>
              AdoptedIn(ss, es, n, m) == ss[k].sc.list.pending
    ensures AdoptedIn(ss, es, n, m).Some? ==> exists k: nat :: n < k < m && SkipsAt(ss, es, k)
  {
    if m > n + 1 {
      AdoptedOnce(ss, es, n, t, p, m - 1);
      SinceOwnFrame(ss, es, n, t, p, m - 1);
    }
  }

  /** The task's turn after its held frame. */
  lemma OwnTurn(s: Sys, t: nat, c: Choice, p: nat)
    requires s.sc.task == Some(t) && t in s.runners && s.runners[t] == HoldEmit(Some(p))
    ensures var s' := RunnerStep(s, t, c);
            && (s'.sc.task.None? || t !in s'.runners <==> Raises(s.sc, p))
            && (t in s'.runners && s'.runners[t].HoldRoute? <==>
                  s.sc.routed != s.sc.tuned && p < |s.sc.list.entries| && !B.PttActive(s.br))
            && (t in s'.runners && s'.runners[t].HoldRoute? ==> s'.runners[t].entry == s.sc.list.entries[p])
  {
  }

  /**
    In every run, at the task's next turn after its held frame: the lookup raises and ends the scan
    if and only if since then a skip of the held entry adopted a list no longer than the position.
   */
  lemma TaskDiesIff(ss: seq<Sys>, es: seq<Event>, n: nat, t: nat, p: nat, m: nat)
    requires IsRun(ss, es) && n < m < |es| && TaskEmits(ss, es, n, t, p)
    requires NoTurn(es, t, n, m) && TurnAt(es, t, m)
    ensures (ss[m + 1].sc.task.None? || t !in ss[m + 1].runners) <==>
              && ss[n + 1].sc.routed != ss[n + 1].sc.tuned
              && exists k: nat :: n < k < m && SkipsAt(ss, es, k) && |ss[k].sc.list.pending.value| <= p
  {
    SinceOwnFrame(ss, es, n, t, p, m);
    AdoptedOnce(ss, es, n, t, p, m);
    assert StepAt(ss, es, m) && StepAt(ss, es, n);
    OwnPosition(ss[n], t, es[n].choice, p);
    OwnTurn(ss[m], t, es[m].choice, p);
    if AdoptedIn(ss, es, n, m).Some? {
      var k: nat :| n < k < m && SkipsAt(ss, es, k);
      assert AdoptedIn(ss, es, n, m) == ss[k].sc.list.pending;
    }
  }

  lemma OwnPosition(s: Sys, t: nat, c: Choice, p: nat)
    requires t in s.runners && s.runners[t].HoldWait?
    requires t in RunnerStep(s, t, c).runners && RunnerStep(s, t, c).runners[t] == HoldEmit(Some(p))
    ensures var s' := RunnerStep(s, t, c);
            p < |s'.sc.list.entries| && Some(s'.sc.list.entries[p].ref) == s'.sc.tuned
  {
  }
}

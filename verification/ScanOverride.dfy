/**
  A key or a hand retune holds the scan first, so that no scanner step runs under it.  `hold` returns at
  once, though, when the scan is held already, and then the scan task may still be inside its own
  hold(): sending the held frame or moving tx_route.  Here is exactly when.
 */
module ScanOverride {
  import opened Options
  import opened ScanList
  import opened ScanSystem
  import opened ScanSafety
  import opened ScanTheorems
  import opened ScanLookup
  import B = PttBroker

  ghost predicate AtWait(s: Sys, t: nat) {
    t in s.runners && s.runners[t].HoldWait?
  }

  ghost predicate AtEmit(s: Sys, t: nat) {
    t in s.runners && s.runners[t].HoldEmit?
  }

  ghost predicate AtRoute(s: Sys, t: nat) {
    t in s.runners && s.runners[t].HoldRoute?
  }

  /** The message asks for a key, or for a hand retune of a scanned slot. */
  ghost predicate Overrides(s: Sys, e: Event) {
    (e.Ptt? && e.on) || (e.Manual? && Scanned(s.sc, e.addr.slot))
  }

  /**
    "Returns once no scanner step is in flight."  In every run the override a message asks for goes to
    the device with the task still inside the step lock if and only if the message finds the scan held
    and the task sending the held frame or moving tx_route in its own hold.
   */
  lemma OverrideRacesIff(ss: seq<Sys>, es: seq<Event>, k: nat, t: nat)
    requires IsRun(ss, es) && k < |es| && Overrides(ss[k], es[k])
    ensures Overriding(ss[k + 1].handler) && t in ss[k + 1].runners && InLock(ss[k + 1].runners[t]) <==>
            ss[k].sc.held && (AtEmit(ss[k], t) || AtRoute(ss[k], t))
    ensures ss[k + 1].runners == ss[k].runners
  {
    RunKeepsInv(ss, es, k);
    assert StepAt(ss, es, k);
  }

  /** An override that had to wait for its hold finds the step lock free. */
  lemma WaitedOverrideStartsAlone(ss: seq<Sys>, es: seq<Event>, k: nat, t: nat)
    requires IsRun(ss, es) && k < |es| && es[k].HandlerGo?
    requires !Overriding(ss[k].handler) && Overriding(ss[k + 1].handler) && t in ss[k + 1].runners
    ensures !InLock(ss[k + 1].runners[t])
  {
    RunKeepsInv(ss, es, k);
    assert StepAt(ss, es, k);
  }

  // --- while the override is on the device ------------------------------------------------------------

  /** A turn of the task's own hold that goes on to move tx_route. */
  ghost predicate RoutesOn(s: Sys, t: nat) {
    && AtEmit(s, t) && s.runners[t].pos.Some? && s.sc.routed != s.sc.tuned
    && s.runners[t].pos.value < |s.sc.list.entries| && !B.PttActive(s.br)
  }

  lemma OwnTurnUnder(s: Sys, t: nat, c: Choice)
    requires Inv(s) && Overriding(s.handler) && Enabled(s, RunnerGo(t, c))
    ensures var s' := RunnerStep(s, t, c);
            && !AtWait(s', t) && (AtEmit(s', t) <==> AtWait(s, t)) && (AtRoute(s', t) <==> RoutesOn(s, t))
  {
    match s.runners[t]
    case Top =>
    case Sleep(_, _) => LeaveVisitEffect(s, t, true);
    case _ =>
  }

  lemma OtherEventUnder(s: Sys, e: Event, t: nat)
    requires Inv(s) && Overriding(s.handler) && Enabled(s, e) && !(e.RunnerGo? && e.task == t)
    ensures var s' := Step(s, e);
            (t in s'.runners <==> t in s.runners) && (t in s.runners ==> s'.runners[t] == s.runners[t])
  {
    if e.RunnerGo? && !s.runners[e.task].Sending? && !ParksItself(s, e.task) {
      TaskStep(s, e.task, e.choice);
    }
  }

  lemma EventUnder(ss: seq<Sys>, es: seq<Event>, n: nat, t: nat)
    requires IsRun(ss, es) && n < |es| && Overriding(ss[n].handler)
    ensures var s, s', own := ss[n], ss[n + 1], TurnAt(es, t, n);
            && (AtWait(s', t) <==> AtWait(s, t) && !own)
            && (AtEmit(s', t) <==> if own then AtWait(s, t) else AtEmit(s, t))
            && (AtRoute(s', t) <==> if own then RoutesOn(s, t) else AtRoute(s, t))
  {
    RunKeepsInv(ss, es, n);
    assert StepAt(ss, es, n);
    if TurnAt(es, t, n) {
      OwnTurnUnder(ss[n], t, es[n].choice);
    } else {
      OtherEventUnder(ss[n], es[n], t);
    }
  }

  /** Turns of `t` from `k` up to `m`. */
  ghost function Turns(es: seq<Event>, t: nat, k: nat, m: nat): nat
    requires k <= m
    decreases m
  {
    if k == m then 0 else Turns(es, t, k, m - 1) + if TurnAt(es, t, m - 1) then 1 else 0
  }

  /** The same override is on the device from `k` to `m`. */
  ghost predicate SameOverride(ss: seq<Sys>, k: nat, m: nat) {
    k <= m < |ss| && Overriding(ss[k].handler) && forall j :: k <= j <= m ==> ss[j].handler == ss[k].handler
  }

  /** The last turn of `t` before `m` went on to move tx_route. */
  ghost predicate RoutedUnder(ss: seq<Sys>, es: seq<Event>, t: nat, k: nat, m: nat)
    requires |ss| == |es| + 1 && k <= m <= |es|
  {
    exists j: nat :: k <= j < m && TurnAt(es, t, j) && RoutesOn(ss[j], t) && Turns(es, t, j + 1, m) == 0
  }

  lemma RoutedUnderNext(ss: seq<Sys>, es: seq<Event>, t: nat, k: nat, m: nat)
    requires |ss| == |es| + 1 && k <= m < |es|
    ensures RoutedUnder(ss, es, t, k, m + 1) <==>
            if TurnAt(es, t, m) then RoutesOn(ss[m], t) else RoutedUnder(ss, es, t, k, m)
  {
    assert Turns(es, t, m + 1, m + 1) == 0;
    if j: nat :| k <= j < m && TurnAt(es, t, j) && RoutesOn(ss[j], t) && Turns(es, t, j + 1, m) == 0 {
      assert Turns(es, t, j + 1, m + 1) == if TurnAt(es, t, m) then 1 else 0;
    }
  }

  /**
    Over every run, at any await under an override that went to the device at `k`, the task is inside
    its own hold if and only if it was so at `k` and has taken just the turns from there to here; and
    it moves tx_route if and only if it already did at `k`, or its last turn found nothing keyed and
    the route elsewhere.
   */
  lemma {:induction false} OwnHoldUnderOverride(ss: seq<Sys>, es: seq<Event>, k: nat, m: nat, t: nat)
    requires IsRun(ss, es) && SameOverride(ss, k, m)
    ensures var turns := Turns(es, t, k, m);
            && (AtWait(ss[m], t) <==> AtWait(ss[k], t) && turns == 0)
            && (AtEmit(ss[m], t) <==> (AtEmit(ss[k], t) && turns == 0) || (AtWait(ss[k], t) && turns == 1))
            && (AtRoute(ss[m], t) <==> (AtRoute(ss[k], t) && turns == 0) || RoutedUnder(ss, es, t, k, m))
  {
    if k < m {
      OwnHoldUnderOverride(ss, es, k, m - 1, t);
      RoutedUnderNext(ss, es, t, k, m - 1);
      EventUnder(ss, es, m - 1, t);
    }
  }

  /**
    "Never away from a module being keyed."  Over every run a tx_route move of the scanner is under
    way while a key is on the wire if and only if it was when the key went out and the task has taken
    no turn since: none starts under a key.
   */
  lemma RouteUnderKeyIff(ss: seq<Sys>, es: seq<Event>, k: nat, m: nat, t: nat)
    requires IsRun(ss, es) && SameOverride(ss, k, m) && ss[k].handler.Keying?
    ensures AtRoute(ss[m], t) <==> AtRoute(ss[k], t) && Turns(es, t, k, m) == 0
  {
    OwnHoldUnderOverride(ss, es, k, m, t);
    forall j | k <= j < m
      ensures B.PttActive(ss[j].br)
    {
      RunKeepsInv(ss, es, j);
    }
  }
}

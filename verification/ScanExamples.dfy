/** Runs from the start of the control loop that show where promises about the scanner fail. */
module ScanExamples {
  import opened Options
  import opened ScanList
  import opened ScanSystem
  import opened ScanRadio
  import B = PttBroker

  ghost predicate Reachable(s: Sys) {
    exists ss, es :: IsRun(ss, es) && ss[|es|] == s
  }

  /** ... by a run with this history, after which the radio is known to be on `k`. */
  ghost predicate Reached(s: Sys, p: Past, k: Option<Entry>) {
    exists ss, es :: IsRun(ss, es) && ss[|es|] == s && History(ss, es, |es|) == p && Known(ss, es, |es|) == k
  }

  predicate Leads(s: Sys, e: Event, s': Sys) {
    Enabled(s, e) && Step(s, e) == s'
  }

  lemma Start0()
    ensures Reached(Init(1.5), NOTHING, None)
  {
    assert IsRun([Init(1.5)], []);
    assert History([Init(1.5)], [], 0) == NOTHING;
  }

  lemma Grows(ss: seq<Sys>, es: seq<Event>, e: Event, s': Sys)
    requires IsRun(ss, es) && Leads(ss[|es|], e, s')
    ensures IsRun(ss + [s'], es + [e])
  {
    var ss', es' := ss + [s'], es + [e];
    forall k | 0 <= k < |es'|
      ensures StepAt(ss', es', k)
    {
      assert k < |es| ==> StepAt(ss, es, k);
    }
  }

  lemma Then(s: Sys, e: Event, s': Sys)
    requires Reachable(s) && Leads(s, e, s')
    ensures Reachable(s')
  {
    var ss, es :| IsRun(ss, es) && ss[|es|] == s;
    Grows(ss, es, e, s');
    assert (ss + [s'])[|es + [e]|] == s';
  }

  lemma {:induction false} PrefixHistory(ss: seq<Sys>, es: seq<Event>, s': Sys, e: Event, n: nat)
    requires |ss| == |es| + 1 && n <= |es|
    ensures History(ss + [s'], es + [e], n) == History(ss, es, n)
    ensures Known(ss + [s'], es + [e], n) == Known(ss, es, n)
  {
    if n > 0 {
      PrefixHistory(ss, es, s', e, n - 1);
    }
  }

  lemma ThenNoted(s: Sys, e: Event, s': Sys, p: Past, k: Option<Entry>)
    requires Reached(s, p, k) && Leads(s, e, s')
    ensures Reached(s', Noted(p, s, e, s'), KnownNext(k, s, e, s'))
  {
    var ss, es :| IsRun(ss, es) && ss[|es|] == s && History(ss, es, |es|) == p && Known(ss, es, |es|) == k;
    Grows(ss, es, e, s');
    PrefixHistory(ss, es, s', e, |es|);
    var ss', es' := ss + [s'], es + [e];
    assert ss'[|es'|] == s' && ss'[|es|] == s && es'[|es|] == e;
    assert History(ss', es', |es'|) == Noted(p, s, e, s');
    assert Known(ss', es', |es'|) == KnownNext(k, s, e, s');
  }

  /** Nothing happens to the radio, to tx_route or to the list. */
  ghost predicate Calm(s: Sys, e: Event, s': Sys) {
    && s'.started == s.started && !ApplyEnds(s, e) && !Applying(s') && RouteEnds(s, e).None?
    && !s'.handler.OnDevice? && !Relists(s, s')
  }

  lemma ThenCalm(s: Sys, e: Event, s': Sys, p: Past, k: Option<Entry>)
    requires Reached(s, p, k) && Leads(s, e, s') && Calm(s, e, s')
    ensures Reached(s', p, k)
  {
    ThenNoted(s, e, s', p, k);
  }

  lemma Forget(s: Sys, p: Past, k: Option<Entry>)
    requires Reached(s, p, k)
    ensures Reachable(s)
  {
    var ss, es :| IsRun(ss, es) && ss[|es|] == s && History(ss, es, |es|) == p && Known(ss, es, |es|) == k;
  }

  // --- one visit ------------------------------------------------------------------------------------

  const PLAIN := Choice(Good, false, false)

  const GO := RunnerGo(0, PLAIN)

  const QUIET := RunnerGo(0, PLAIN.(outcome := CarrierOff))

  /** The state with scan task 0 at `r`. */
  function At(s: Sys, r: Runner): Sys {
    s.(runners := map[0 := r], lock := if InLock(r) then Some(ByRunner(0)) else None)
  }

  /** Scan 0 can go on undisturbed. */
  predicate Undisturbed(s: Sys) {
    && s.sc.task == Some(0) && !s.sc.held && !s.sc.stopping && !s.sc.skip && s.handler.Ready?
    && InRange(s.sc.list) && !B.PttActive(s.br)
  }

  function Entered(s: Sys): Sys {
    s.(sc := s.sc.(visitGen := s.sc.holdGen))
  }

  function Tuned(s: Sys, entry: Entry): Sys {
    s.(sc := s.sc.(tuned := Some(entry.ref)))
  }

  lemma Begins(s: Sys)
    requires Undisturbed(s)
    ensures Leads(At(s, Top), GO, At(Entered(s), Wait(Scanning, s.sc.list.entries[s.sc.list.index])))
  {
    assert s.sc.(skip := false) == s.sc;
  }

  lemma Enters(s: Sys, work: Work, entry: Entry)
    requires Undisturbed(s) && s.sc.visitGen == s.sc.holdGen
    ensures Leads(At(s, Wait(work, entry)), GO, At(s, Body(work, entry)))
  {
  }

  lemma LeavesScanning(s: Sys, entry: Entry)
    ensures Leads(At(s, Body(Scanning, entry)), GO, At(s, Wait(Apply, entry)))
  {
  }

  lemma LeavesApply(s: Sys, entry: Entry)
    requires Undisturbed(s)
    ensures Leads(At(s, Body(Apply, entry)), GO, At(Tuned(s, entry), Wait(Listen, entry)))
  {
  }

  lemma LeavesListen(s: Sys, entry: Entry)
    ensures Leads(At(s, Body(Listen, entry)), QUIET, At(s, Sleep(Listen, entry)))
  {
  }

  /** From the top of a turn into the apply of the entry. */
  lemma ReachApply(s: Sys, p: Past, k: Option<Entry>)
    requires Undisturbed(s) && Reached(At(s, Top), p, k)
    ensures Reached(At(Entered(s), Body(Apply, s.sc.list.entries[s.sc.list.index])), p, None)
  {
    var entry, v := s.sc.list.entries[s.sc.list.index], Entered(s);
    Begins(s);
    ThenCalm(At(s, Top), GO, At(v, Wait(Scanning, entry)), p, k);
    Enters(v, Scanning, entry);
    ThenCalm(At(v, Wait(Scanning, entry)), GO, At(v, Body(Scanning, entry)), p, k);
    LeavesScanning(v, entry);
    ThenCalm(At(v, Body(Scanning, entry)), GO, At(v, Wait(Apply, entry)), p, k);
    ReachApplying(v, entry, p, k);
  }

  lemma ReachApplying(v: Sys, entry: Entry, p: Past, k: Option<Entry>)
    requires Undisturbed(v) && v.sc.visitGen == v.sc.holdGen && Reached(At(v, Wait(Apply, entry)), p, k)
    ensures Reached(At(v, Body(Apply, entry)), p, None)
  {
    var s, s' := At(v, Wait(Apply, entry)), At(v, Body(Apply, entry));
    Enters(v, Apply, entry);
    ThenNoted(s, GO, s', p, k);
    assert s'.runners[0].Body?;
    assert Applying(s') && Noted(p, s, GO, s') == p;
  }

  /** ... and through a good apply to the carrier read. */
  lemma ReachListen(s: Sys, p: Past, k: Option<Entry>)
    requires Undisturbed(s) && Reached(At(s, Top), p, k)
    ensures var entry := s.sc.list.entries[s.sc.list.index];
            Reached(At(Tuned(Entered(s), entry), Body(Listen, entry)), On(p, entry), Some(entry))
  {
    var entry, v := s.sc.list.entries[s.sc.list.index], Entered(s);
    ReachApply(s, p, k);
    var s1, s2 := At(v, Body(Apply, entry)), At(Tuned(v, entry), Wait(Listen, entry));
    LeavesApply(v, entry);
    ThenNoted(s1, GO, s2, p, None);
    assert s1.runners[0] == Body(Apply, entry);
    assert Noted(p, s1, GO, s2) == On(p, entry) && KnownNext(None, s1, GO, s2) == Some(entry);
    Enters(Tuned(v, entry), Listen, entry);
    ThenCalm(s2, GO, At(Tuned(v, entry), Body(Listen, entry)), On(p, entry), Some(entry));
  }

  /** The history right after a good apply. */
  function On(p: Past, entry: Entry): Past {
    Past(p.routed, Some(entry), false, false, false)
  }

  // --- a scan of two entries -------------------------------------------------------------------

  /** Scan 0 at `list`, its radio on `tuned`, its task at `r`. */
  function Scan(list: Cursor, tuned: Option<string>, r: Runner): Sys {
    Sys(Fresh(0, []).(list := list, tuned := tuned),
        if InLock(r) then Some(ByRunner(0)) else None, Ready, map[0 := r], 1, B.Init(1.5), [])
  }

  lemma ReachTop(a: Entry, b: Entry)
    requires a.ref != b.ref
    ensures Reached(Scan(Cursor([a, b], None, 0, 0), None, Top), NOTHING, None)
  {
    var s' := Scan(Cursor([a, b], None, 0, 0), None, Top);
    Start0();
    assert Leads(Init(1.5), Start([a, b]), s');
    ThenNoted(Init(1.5), Start([a, b]), s', NOTHING, None);
  }

  lemma LeavesVisit(a: Entry, b: Entry)
    ensures Leads(Scan(Cursor([a, b], None, 0, 0), Some(a.ref), Body(Listen, a)),
                  RunnerGo(0, PLAIN.(outcome := CarrierOff, due := true)),
                  Scan(Cursor([a, b], None, 1, 0), Some(a.ref), Top))
  {
    assert EndVisit(Cursor([a, b], None, 0, 0), true) == Some(Cursor([a, b], None, 1, 0));
  }

  /** The first entry was visited, the second is next. */
  lemma ReachSecond(a: Entry, b: Entry)
    requires a.ref != b.ref
    ensures Reached(Scan(Cursor([a, b], None, 1, 0), Some(a.ref), Top), On(NOTHING, a), Some(a))
  {
    var first := Cursor([a, b], None, 0, 0);
    var s := Scan(first, None, Top);
    ReachTop(a, b);
    assert At(s, Top) == s && Entered(s) == s;
    ReachListen(s, NOTHING, None);
    assert At(Tuned(s, a), Body(Listen, a)) == Scan(first, Some(a.ref), Body(Listen, a));
    LeavesVisit(a, b);
    ThenCalm(Scan(first, Some(a.ref), Body(Listen, a)), RunnerGo(0, PLAIN.(outcome := CarrierOff, due := true)),
             Scan(Cursor([a, b], None, 1, 0), Some(a.ref), Top), On(NOTHING, a), Some(a));
  }

  // --- an apply that raises -----------------------------------------------------------------------

  /** The second apply raises, possibly with the radio half retuned, and the terminal frame names the first. */
  lemma RaisedApplyExample(a: Entry, b: Entry) returns (s: Sys, e: Event)
    requires a.ref != b.ref
    ensures Reached(s, On(NOTHING, a), None) && s.runners == map[0 := Body(Apply, b)] && Enabled(s, e)
    ensures Step(s, e).runners == map[0 := Sending(Frame(0, Stopped, Some(a.ref)))]
  {
    var list := Cursor([a, b], None, 1, 0);
    var top := Scan(list, Some(a.ref), Top);
    ReachSecond(a, b);
    assert At(top, Top) == top && Entered(top) == top;
    ReachApply(top, On(NOTHING, a), Some(a));
    s, e := At(top, Body(Apply, b)), RunnerGo(0, PLAIN.(outcome := Raised));
    RaisedNamesFirst(s, a, b);
  }

  lemma RaisedNamesFirst(s: Sys, a: Entry, b: Entry)
    requires s == Scan(Cursor([a, b], None, 1, 0), Some(a.ref), Body(Apply, b))
    ensures var e := RunnerGo(0, PLAIN.(outcome := Raised));
            Enabled(s, e) && Step(s, e).runners == map[0 := Sending(Frame(0, Stopped, Some(a.ref)))]
  {
    assert FindRef([a, b], a.ref) == Some(0);
    assert NamedRef(s.sc) == Some(a.ref);
  }

  // --- the handler's hold -------------------------------------------------------------------------

  /** The task sleeps in the listen window of the second entry. */
  function Dozing(a: Entry, b: Entry): Sys {
    Scan(Cursor([a, b], None, 1, 0), Some(b.ref), Sleep(Listen, b))
  }

  /** ... a list waits and a skip was noted. */
  function Asleep(a: Entry, b: Entry, list: seq<Entry>): Sys {
    var s := Scan(Cursor([a, b], Some(list), 1, 0), Some(b.ref), Sleep(Listen, b));
    s.(sc := s.sc.(skip := true))
  }

  lemma ReachSleep(a: Entry, b: Entry)
    requires a.ref != b.ref
    ensures Reached(Dozing(a, b), On(NOTHING, b), Some(b))
  {
    var top := Scan(Cursor([a, b], None, 1, 0), Some(a.ref), Top);
    ReachSecond(a, b);
    assert At(top, Top) == top && Entered(top) == top;
    ReachListen(top, On(NOTHING, a), Some(a));
    LeavesListen(Tuned(top, b), b);
    assert At(Tuned(top, b), Sleep(Listen, b)) == Dozing(a, b);
    assert On(On(NOTHING, a), b) == On(NOTHING, b);
    ThenCalm(At(Tuned(top, b), Body(Listen, b)), QUIET, Dozing(a, b), On(NOTHING, b), Some(b));
  }

  lemma ReachAsleep(a: Entry, b: Entry, list: seq<Entry>)
    requires a.ref != b.ref && list != [] && Unique(list)
    ensures Reached(Asleep(a, b, list), On(NOTHING, b), Some(b))
  {
    var s := Dozing(a, b);
    var s1 := s.(sc := s.sc.(list := Cursor([a, b], Some(list), 1, 0)));
    ReachSleep(a, b);
    assert Leads(s, Update(list), s1);
    ThenCalm(s, Update(list), s1, On(NOTHING, b), Some(b));
    assert Leads(s1, SkipMsg, Asleep(a, b, list));
    ThenCalm(s1, SkipMsg, Asleep(a, b, list), On(NOTHING, b), Some(b));
  }

  function HeldBy(s: Sys, keyed: Option<B.Addr>, next: Next): Sys {
    s.(sc := MarkHeld(s.sc), handler := HoldingWait(keyed, next))
  }

  function Parking(s: Sys, b: Entry, keyed: Option<B.Addr>, next: Next): Sys {
    HeldBy(s, keyed, next).(lock := Some(ByHandler), frames := [Frame(0, Held, Some(b.ref))],
    handler := HoldingEmit(Some(1), keyed, next))
  }

  lemma SecondRef(a: Entry, b: Entry)
    requires a.ref != b.ref
    ensures FindRef([a, b], b.ref) == Some(1)
  {
    assert [a, b][1..] == [b];
  }

  lemma Parks(a: Entry, b: Entry, list: seq<Entry>, keyed: Option<B.Addr>, next: Next)
    requires a.ref != b.ref
    ensures var s := Asleep(a, b, list); Leads(HeldBy(s, keyed, next), HandlerGo(0, true), Parking(s, b, keyed, next))
  {
    SecondRef(a, b);
    var s := HeldBy(Asleep(a, b, list), keyed, next);
    assert s.sc.list.(index := 1) == s.sc.list;
  }

  /** The list has replaced [a, b] under the handler's await. */
  function Replaced(s: Sys, list: Cursor): Sys {
    s.(sc := s.sc.(list := list), runners := map[0 := Top])
  }

  lemma Replaces(a: Entry, b: Entry, list: seq<Entry>, keyed: Option<B.Addr>, next: Next)
    requires list != [] && forall i :: 0 <= i < |list| ==> list[i].ref != b.ref
    ensures var s := Parking(Asleep(a, b, list), b, keyed, next);
            Leads(s, GO, Replaced(s, Cursor(list, None, 1 % |list|, 0)))
  {
    var s := Parking(Asleep(a, b, list), b, keyed, next);
    assert FindRef(list, b.ref).None?;
    assert EndVisit(s.sc.list, true) == Some(Cursor(list, None, 1 % |list|, 0));
  }

  lemma ReachParking(a: Entry, b: Entry, list: seq<Entry>, keyed: Option<B.Addr>, next: Next, e: Event)
    requires a.ref != b.ref && list != [] && Unique(list) && !e.HandlerGo? && !e.RunnerGo?
    requires Leads(Asleep(a, b, list), e, HeldBy(Asleep(a, b, list), keyed, next))
    ensures Reached(Parking(Asleep(a, b, list), b, keyed, next), On(NOTHING, b), Some(b))
  {
    var s0 := Asleep(a, b, list);
    ReachAsleep(a, b, list);
    Parks(a, b, list, keyed, next);
    ThenParks(s0, b, keyed, next, e);
  }

  /** A hold of the sleeping task, up to its held frame. */
  lemma ThenParks(s: Sys, b: Entry, keyed: Option<B.Addr>, next: Next, e: Event)
    requires Reached(s, On(NOTHING, b), Some(b)) && s.runners == map[0 := Sleep(Listen, b)] && !e.HandlerGo? && !e.RunnerGo?
    requires Leads(s, e, HeldBy(s, keyed, next))
    requires Leads(HeldBy(s, keyed, next), HandlerGo(0, true), Parking(s, b, keyed, next))
    ensures Reached(Parking(s, b, keyed, next), On(NOTHING, b), Some(b))
  {
    assert forall t :: t in s.runners ==> !s.runners[t].Body?;
    ThenCalm(s, e, HeldBy(s, keyed, next), On(NOTHING, b), Some(b));
    ThenCalm(HeldBy(s, keyed, next), HandlerGo(0, true), Parking(s, b, keyed, next), On(NOTHING, b), Some(b));
  }

  /** The same from the second entry's listen window with nothing waiting. */
  lemma ReachDozingParked(a: Entry, b: Entry, e: Event, keyed: Option<B.Addr>, next: Next)
    requires a.ref != b.ref && !e.HandlerGo? && !e.RunnerGo?
    requires Leads(Dozing(a, b), e, HeldBy(Dozing(a, b), keyed, next))
    ensures Reached(Parking(Dozing(a, b), b, keyed, next), On(NOTHING, b), Some(b))
  {
    ReachSleep(a, b);
    DozingParks(a, b, keyed, next);
    ThenParks(Dozing(a, b), b, keyed, next, e);
  }

  lemma DozingParks(a: Entry, b: Entry, keyed: Option<B.Addr>, next: Next)
    requires a.ref != b.ref
    ensures Leads(HeldBy(Dozing(a, b), keyed, next), HandlerGo(0, true), Parking(Dozing(a, b), b, keyed, next))
  {
    SecondRef(a, b);
    var s := HeldBy(Dozing(a, b), keyed, next);
    assert s.sc.list.(index := 1) == s.sc.list;
  }

  /** The handler is back from its held frame, with the list replaced by one without the tuned entry. */
  lemma ReachReplaced(a: Entry, b: Entry, list: seq<Entry>, keyed: Option<B.Addr>, next: Next, e: Event) returns (s: Sys)
    requires a.ref != b.ref && list != [] && Unique(list) && forall i :: 0 <= i < |list| ==> list[i].ref != b.ref
    requires !e.HandlerGo? && !e.RunnerGo?
    requires Leads(Asleep(a, b, list), e, HeldBy(Asleep(a, b, list), keyed, next))
    ensures s == Replaced(Parking(Asleep(a, b, list), b, keyed, next), Cursor(list, None, 1 % |list|, 0))
    ensures Reached(s, On(NOTHING, b).(relisted := true), Some(b))
  {
    var s0 := Asleep(a, b, list);
    ReachParking(a, b, list, keyed, next, e);
    Replaces(a, b, list, keyed, next);
    s := Replaced(Parking(s0, b, keyed, next), Cursor(list, None, 1 % |list|, 0));
    Adopted(Parking(s0, b, keyed, next), s, b);
  }

  /** The task's turn adopts another list. */
  lemma Adopted(s: Sys, s': Sys, b: Entry)
    requires Reached(s, On(NOTHING, b), Some(b)) && Leads(s, GO, s')
    requires s.runners == map[0 := Sleep(Listen, b)] && s'.runners == map[0 := Top] && Relists(s, s')
    requires s'.started == s.started && s'.handler == s.handler && !s.handler.OnDevice?
    ensures Reached(s', On(NOTHING, b).(relisted := true), Some(b))
  {
    ThenNoted(s, GO, s', On(NOTHING, b), Some(b));
    assert s'.runners[0].Top?;
  }

  /** An update to the first entry alone, a skip and then a PTT key: the key is lost with the connection. */
  lemma HandlerDiesExample(a: Entry, b: Entry) returns (s: Sys)
    requires a.ref != b.ref
    ensures Reachable(s) && s.handler.Dead? && s.br == B.Init(1.5)
  {
    var s0 := Asleep(a, b, [a]);
    assert Leads(s0, Ptt(b.addr, true), HeldBy(s0, Some(b.addr), KeyUp(b.addr)));
    var r := ReachReplaced(a, b, [a], Some(b.addr), KeyUp(b.addr), Ptt(b.addr, true));
    Forget(r, On(NOTHING, b).(relisted := true), Some(b));
    s := r.(lock := None, handler := Dead);
    assert Leads(r, HandlerGo(0, true), s);
    Then(r, HandlerGo(0, true), s);
  }

  /** An update to two other entries, a skip and an operator hold: tx_route goes to an entry the radio is not on. */
  lemma HandlerStraysExample(a: Entry, b: Entry, d: Entry) returns (s: Sys)
    requires a.ref != b.ref && d.ref != b.ref && a.ref != d.ref
    ensures s.handler == HoldingRoute(d, Done) && Reached(s, On(NOTHING, b).(relisted := true), Some(b))
  {
    var s0 := Asleep(a, b, [a, d]);
    assert Leads(s0, HoldMsg, HeldBy(s0, None, Done));
    var r := ReachReplaced(a, b, [a, d], None, Done, HoldMsg);
    s := r.(handler := HoldingRoute(d, Done));
    assert Leads(r, HandlerGo(0, true), s);
    ThenCalm(r, HandlerGo(0, true), s, On(NOTHING, b).(relisted := true), Some(b));
  }

  // --- the scan task's own hold ---------------------------------------------------------------------

  /** The broker with one acknowledged key. */
  function Keyed(x: B.Addr): B.State {
    B.State(1.5, 0.0, map[x := 0], map[0 := B.Timer(x, 1.5)], 1, {}, {}, [])
  }

  /** The scan on its second entry with another module keyed: the task at `r`, under hold `gen`. */
  function Under(list: Cursor, b: Entry, x: B.Addr, r: Runner, held: bool, gen: nat, visit: nat, frames: nat): Sys
    requires frames <= 2
  {
    var f := Frame(0, Held, Some(b.ref));
    var s := Scan(list, Some(b.ref), r);
    s.(sc := s.sc.(held := held, holdGen := gen, visitGen := visit, resume := !held),
    br := Keyed(x), frames := [f, f][..frames])
  }

  /** The handler has held the scan and put another module's key on the wire. */
  function KeyOut(a: Entry, b: Entry, x: B.Addr): Sys {
    Parking(Dozing(a, b), b, Some(x), KeyUp(x)).
    (lock := None, handler := Keying(x, true), br := B.Init(1.5).(inflight := {x}, wire := [B.Key(x, true)]))
  }

  lemma KeyHolds(a: Entry, b: Entry, x: B.Addr)
    ensures Leads(Dozing(a, b), Ptt(x, true), HeldBy(Dozing(a, b), Some(x), KeyUp(x)))
  {
  }

  lemma KeyGoesOut(a: Entry, b: Entry, x: B.Addr)
    requires x != b.addr
    ensures Leads(Parking(Dozing(a, b), b, Some(x), KeyUp(x)), HandlerGo(0, true), KeyOut(a, b, x))
  {
    assert B.Step(B.Init(1.5), B.KeyStart(x, true)) == B.Init(1.5).(inflight := {x}, wire := [B.Key(x, true)]);
  }

  lemma KeyLands(a: Entry, b: Entry, x: B.Addr)
    ensures Leads(KeyOut(a, b, x), HandlerGo(0, true),
                  Under(Cursor([a, b], None, 1, 0), b, x, Sleep(Listen, b), true, 1, 0, 1))
  {
    var s, f := KeyOut(a, b, x), Frame(0, Held, Some(b.ref));
    assert [f, f][..1] == [f];
    assert B.Step(s.br, B.KeyDone(0, true)) == Keyed(x);
  }

  /** Another module is keyed while the task sleeps. */
  lemma ReachOtherKey(a: Entry, b: Entry, x: B.Addr)
    requires a.ref != b.ref && x != b.addr
    ensures Reached(Under(Cursor([a, b], None, 1, 0), b, x, Sleep(Listen, b), true, 1, 0, 1), On(NOTHING, b), Some(b))
  {
    var s, p := Dozing(a, b), On(NOTHING, b);
    KeyHolds(a, b, x);
    ReachDozingParked(a, b, Ptt(x, true), Some(x), KeyUp(x));
    KeyGoesOut(a, b, x);
    ThenCalm(Parking(s, b, Some(x), KeyUp(x)), HandlerGo(0, true), KeyOut(a, b, x), p, Some(b));
    KeyLands(a, b, x);
    ThenCalm(KeyOut(a, b, x), HandlerGo(0, true),
             Under(Cursor([a, b], None, 1, 0), b, x, Sleep(Listen, b), true, 1, 0, 1), p, Some(b));
  }

  /** The scan is resumed with that key still live. */
  lemma ReachResumed(a: Entry, b: Entry, x: B.Addr)
    requires a.ref != b.ref && x != b.addr
    ensures Reachable(Under(Cursor([a, b], None, 1, 0), b, x, Sleep(Listen, b), false, 1, 0, 1))
  {
    var second := Cursor([a, b], None, 1, 0);
    ReachOtherKey(a, b, x);
    var s1 := Under(second, b, x, Sleep(Listen, b), true, 1, 0, 1);
    var s2 := Under(second, b, x, Sleep(Listen, b), false, 1, 0, 1);
    Forget(s1, On(NOTHING, b), Some(b));
    assert Leads(s1, ResumeMsg, s2);
    Then(s1, ResumeMsg, s2);
  }

  /** The outdated visit ends and the next one finds the key. */
  lemma ReachOwnHold(a: Entry, b: Entry, x: B.Addr)
    requires a.ref != b.ref && x != b.addr
    ensures Reachable(Under(Cursor([a, b], None, 1, 0), b, x, HoldWait, true, 2, 1, 1))
  {
    var second := Cursor([a, b], None, 1, 0);
    ReachResumed(a, b, x);
    var s := Under(second, b, x, Sleep(Listen, b), false, 1, 0, 1);
    var s1 := Under(second, b, x, Wait(Listen, b), false, 1, 0, 1);
    WakesOutdated(a, b, x);
    Then(s, GO, s1);
    var s2 := Under(second, b, x, Top, false, 1, 0, 1);
    Then(s1, GO, s2);
    var s3 := Under(second, b, x, HoldWait, true, 2, 1, 1);
    TurnsToHold(a, b, x);
    Then(s2, GO, s3);
  }

  lemma WakesOutdated(a: Entry, b: Entry, x: B.Addr)
    ensures var second := Cursor([a, b], None, 1, 0);
            && Leads(Under(second, b, x, Sleep(Listen, b), false, 1, 0, 1), GO,
                     Under(second, b, x, Wait(Listen, b), false, 1, 0, 1))
            && Leads(Under(second, b, x, Wait(Listen, b), false, 1, 0, 1), GO,
                     Under(second, b, x, Top, false, 1, 0, 1))
  {
  }

  lemma TurnsToHold(a: Entry, b: Entry, x: B.Addr)
    ensures var second := Cursor([a, b], None, 1, 0);
            Leads(Under(second, b, x, Top, false, 1, 0, 1), GO, Under(second, b, x, HoldWait, true, 2, 1, 1))
  {
    assert x in Keyed(x).ptt;
  }

  /** The task awaits its own held frame; an update and a skip replace the list meanwhile. */
  lemma ReachOwnReplaced(a: Entry, b: Entry, x: B.Addr, list: seq<Entry>)
    requires a.ref != b.ref && x != b.addr && list != [] && Unique(list)
    requires forall i :: 0 <= i < |list| ==> list[i].ref != b.ref
    ensures Reachable(Under(Cursor(list, None, 1 % |list|, 0), b, x, HoldEmit(Some(1)), false, 2, 1, 2))
  {
    var second := Cursor([a, b], None, 1, 0);
    ReachOwnHold(a, b, x);
    var s := Under(second, b, x, HoldWait, true, 2, 1, 1);
    var s1 := Under(second, b, x, HoldEmit(Some(1)), true, 2, 1, 2);
    ParksItself(a, b, x);
    Then(s, GO, s1);
    var s2 := Under(Cursor([a, b], Some(list), 1, 0), b, x, HoldEmit(Some(1)), true, 2, 1, 2);
    UpdateWaits(a, b, x, list);
    Then(s1, Update(list), s2);
    var s3 := Under(Cursor(list, None, 1 % |list|, 0), b, x, HoldEmit(Some(1)), false, 2, 1, 2);
    SkipReplaces(a, b, x, list);
    Then(s2, SkipMsg, s3);
  }

  lemma ParksItself(a: Entry, b: Entry, x: B.Addr)
    requires a.ref != b.ref
    ensures var second := Cursor([a, b], None, 1, 0);
            Leads(Under(second, b, x, HoldWait, true, 2, 1, 1), GO,
                  Under(second, b, x, HoldEmit(Some(1)), true, 2, 1, 2))
  {
    SecondRef(a, b);
    var f := Frame(0, Held, Some(b.ref));
    assert [f, f][..1] + [f] == [f, f][..2];
  }

  lemma UpdateWaits(a: Entry, b: Entry, x: B.Addr, list: seq<Entry>)
    requires list != [] && Unique(list)
    ensures Leads(Under(Cursor([a, b], None, 1, 0), b, x, HoldEmit(Some(1)), true, 2, 1, 2), Update(list),
                  Under(Cursor([a, b], Some(list), 1, 0), b, x, HoldEmit(Some(1)), true, 2, 1, 2))
  {
  }

  lemma SkipReplaces(a: Entry, b: Entry, x: B.Addr, list: seq<Entry>)
    requires list != [] && forall i :: 0 <= i < |list| ==> list[i].ref != b.ref
    ensures Leads(Under(Cursor([a, b], Some(list), 1, 0), b, x, HoldEmit(Some(1)), true, 2, 1, 2), SkipMsg,
                  Under(Cursor(list, None, 1 % |list|, 0), b, x, HoldEmit(Some(1)), false, 2, 1, 2))
  {
    assert FindRef(list, b.ref).None?;
    assert NextIndex(Cursor([a, b], Some(list), 1, 0), 1) == Cursor(list, None, 1 % |list|, 0);
  }

  /** The scan task's own hold hits the same lookup, and the scan ends as an internal error. */
  lemma TaskDiesExample(a: Entry, b: Entry, x: B.Addr) returns (s: Sys, s': Sys)
    requires a.ref != b.ref && x != b.addr
    ensures Reachable(s) && Leads(s, GO, s') && s.runners == map[0 := HoldEmit(Some(1))]
    ensures s'.sc == IDLE && s'.runners == map[0 := Sending(Frame(0, Stopped, None))]
  {
    ReachOwnReplaced(a, b, x, [a]);
    s := Under(Cursor([a], None, 0, 0), b, x, HoldEmit(Some(1)), false, 2, 1, 2);
    s' := Step(s, GO);
    assert FindRef([a], b.ref).None?;
  }

  // --- the tuned ref on another module ----------------------------------------------------------------

  /** The list [a, c] has been adopted before any hold. */
  function Relisted(a: Entry, b: Entry, c: Entry): Sys {
    Replaced(Asleep(a, b, [a, c]), Cursor([a, c], None, 0, 0))
  }

  lemma RelistsTuned(a: Entry, b: Entry, c: Entry)
    requires a.ref != b.ref && c.ref == b.ref
    ensures Leads(Asleep(a, b, [a, c]), GO, Relisted(a, b, c))
  {
    SecondRef(a, c);
    assert EndVisit(Asleep(a, b, [a, c]).sc.list, true) == Some(Cursor([a, c], None, 0, 0));
  }

  lemma ReachRelisted(a: Entry, b: Entry, c: Entry)
    requires a.ref != b.ref && c.ref == b.ref && c != b
    ensures Reached(Relisted(a, b, c), On(NOTHING, b).(relisted := true), Some(b))
  {
    ReachAsleep(a, b, [a, c]);
    RelistsTuned(a, b, c);
    assert [a, b][1] != [a, c][1];
    Adopted(Asleep(a, b, [a, c]), Relisted(a, b, c), b);
  }

  /** The handler sends the held frame of `c`, the second entry. */
  function HeldOn(a: Entry, b: Entry, c: Entry, keyed: Option<B.Addr>, next: Next): Sys {
    var s := Parking(Relisted(a, b, c), b, keyed, next);
    s.(sc := s.sc.(list := Cursor([a, c], None, 1, 0)))
  }

  lemma HoldsRelisted(a: Entry, b: Entry, c: Entry, keyed: Option<B.Addr>, next: Next)
    requires a.ref != b.ref && c.ref == b.ref
    ensures Leads(HeldBy(Relisted(a, b, c), keyed, next), HandlerGo(0, true), HeldOn(a, b, c, keyed, next))
  {
    SecondRef(a, c);
  }

  lemma ReachHeldOn(a: Entry, b: Entry, c: Entry, e: Event, keyed: Option<B.Addr>, next: Next)
    requires a.ref != b.ref && c.ref == b.ref && c != b
    requires Leads(Relisted(a, b, c), e, HeldBy(Relisted(a, b, c), keyed, next))
    ensures Reached(HeldOn(a, b, c, keyed, next), On(NOTHING, b).(relisted := true), Some(b))
  {
    var p, s0 := On(NOTHING, b).(relisted := true), Relisted(a, b, c);
    ReachRelisted(a, b, c);
    ThenCalm(s0, e, HeldBy(s0, keyed, next), p, Some(b));
    HoldsRelisted(a, b, c, keyed, next);
    CalmHeldOn(a, b, c, keyed, next);
    ThenCalm(HeldBy(s0, keyed, next), HandlerGo(0, true), HeldOn(a, b, c, keyed, next), p, Some(b));
  }

  lemma CalmHeldOn(a: Entry, b: Entry, c: Entry, keyed: Option<B.Addr>, next: Next)
    ensures Calm(HeldBy(Relisted(a, b, c), keyed, next), HandlerGo(0, true), HeldOn(a, b, c, keyed, next))
  {
    assert HeldOn(a, b, c, keyed, next).runners == map[0 := Top];
  }

  /**
    The radio is on `b`; an adopted list has its ref on another entry.  The held frame names that one,
    and the hold moves tx_route to its module, with no list waiting and no turn of the task in between.
   */
  lemma RelistedExample(a: Entry, b: Entry, c: Entry) returns (s: Sys)
    requires a.ref != b.ref && c.ref == b.ref && c.addr != b.addr
    ensures Reached(s, On(NOTHING, b).(relisted := true), Some(b)) && s.handler == HoldingRoute(c, Done)
    ensures s.frames == [Frame(0, Held, Some(c.ref))] && s.sc.list == Cursor([a, c], None, 1, 0)
  {
    var s0 := HeldOn(a, b, c, None, Done);
    assert Leads(Relisted(a, b, c), HoldMsg, HeldBy(Relisted(a, b, c), None, Done));
    ReachHeldOn(a, b, c, HoldMsg, None, Done);
    s := s0.(handler := HoldingRoute(c, Done));
    assert Leads(s0, HandlerGo(0, true), s);
    ThenCalm(s0, HandlerGo(0, true), s, On(NOTHING, b).(relisted := true), Some(b));
  }

  /** The broker with the key of `x` on the wire. */
  function KeyingOut(br: B.State, x: B.Addr): B.State {
    br.(inflight := {x}, wire := [B.Key(x, true)])
  }

  /** With that list, the key of the module the radio is on goes out and tx_route was never moved there. */
  lemma RelistedKeyExample(a: Entry, b: Entry, c: Entry) returns (s: Sys)
    requires a.ref != b.ref && c.ref == b.ref && c.addr != b.addr
    ensures Reached(s, On(NOTHING, b).(relisted := true), Some(b))
    ensures s.handler == Keying(b.addr, true) && s.sc.routed.None?
  {
    var x, s0 := b.addr, HeldOn(a, b, c, Some(b.addr), KeyUp(b.addr));
    assert Leads(Relisted(a, b, c), Ptt(x, true), HeldBy(Relisted(a, b, c), Some(x), KeyUp(x)));
    ReachHeldOn(a, b, c, Ptt(x, true), Some(x), KeyUp(x));
    s := s0.(lock := None, handler := Keying(x, true), br := KeyingOut(B.Init(1.5), x));
    assert Leads(s0, HandlerGo(0, true), s);
    ThenCalm(s0, HandlerGo(0, true), s, On(NOTHING, b).(relisted := true), Some(b));
  }

  // --- a hand retune -------------------------------------------------------------------------------------

  /** The operator's retune of the tuned module is about to go to the device. */
  function RetuneRoutes(a: Entry, b: Entry): Sys {
    Parking(Dozing(a, b), b, None, Device(b.addr)).(handler := HoldingRoute(b, Device(b.addr)))
  }

  /** ... and it is done; the scan is held. */
  function Retuned(a: Entry, b: Entry): Sys {
    var s := RetuneRoutes(a, b);
    s.(sc := s.sc.(routed := Some(b.ref)), lock := None, handler := Ready)
  }

  /** The scan has routed to and applied `b`, whose module was then retuned by hand. */
  function RetunedPast(b: Entry): Past {
    Past(Some(b), Some(b), false, true, false)
  }

  lemma RetuneHolds(a: Entry, b: Entry)
    requires a.ref != b.ref
    ensures Leads(Dozing(a, b), Manual(b.addr), HeldBy(Dozing(a, b), None, Device(b.addr)))
  {
    assert Dozing(a, b).sc.list.entries[1].addr.slot == b.addr.slot;
  }

  lemma ReachRetuneRoutes(a: Entry, b: Entry)
    requires a.ref != b.ref
    ensures Reached(RetuneRoutes(a, b), On(NOTHING, b), Some(b))
  {
    var s, next, p := Dozing(a, b), Device(b.addr), On(NOTHING, b);
    RetuneHolds(a, b);
    ReachDozingParked(a, b, Manual(b.addr), None, next);
    assert Leads(Parking(s, b, None, next), HandlerGo(0, true), RetuneRoutes(a, b));
    ThenCalm(Parking(s, b, None, next), HandlerGo(0, true), RetuneRoutes(a, b), p, Some(b));
  }

  lemma ReachRetuned(a: Entry, b: Entry)
    requires a.ref != b.ref
    ensures Reached(Retuned(a, b), RetunedPast(b), None)
  {
    var s, s' := RetuneRoutes(a, b), Retuned(a, b).(handler := OnDevice(b.addr, true));
    ReachRetuneRoutes(a, b);
    assert Leads(s, HandlerGo(0, true), s');
    ThenNoted(s, HandlerGo(0, true), s', On(NOTHING, b), Some(b));
    assert s'.runners[0].Sleep?;
    assert Leads(s', HandlerGo(0, true), Retuned(a, b));
    ThenCalm(s', HandlerGo(0, true), Retuned(a, b), RetunedPast(b), None);
  }

  /** The operator stops the scan and its task is gone. */
  function Joined(s: Sys): Sys {
    s.(sc := s.sc.(stopping := true), handler := StopJoin(0, None), runners := map[])
  }

  lemma ReachJoined(a: Entry, b: Entry)
    requires a.ref != b.ref
    ensures Reached(Joined(Retuned(a, b)), RetunedPast(b), None)
  {
    var s0, p := Retuned(a, b), RetunedPast(b);
    ReachRetuned(a, b);
    StopsRetuned(a, b);
    var s1 := s0.(sc := s0.sc.(stopping := true), handler := StopWait(0, None));
    ThenCalm(s0, StopMsg, s1, p, None);
    var s2 := s1.(handler := StopJoin(0, None));
    ThenCalm(s1, HandlerGo(0, true), s2, p, None);
    ThenCalm(s2, Cancel(0), Joined(s0), p, None);
  }

  lemma StopsRetuned(a: Entry, b: Entry)
    ensures var s0 := Retuned(a, b);
            var s1 := s0.(sc := s0.sc.(stopping := true), handler := StopWait(0, None));
            var s2 := s1.(handler := StopJoin(0, None));
            && Leads(s0, StopMsg, s1) && Leads(s1, HandlerGo(0, true), s2) && Leads(s2, Cancel(0), Joined(s0))
  {
  }

  /** A retune of the tuned module by hand, then stop: the terminal frame names the entry the radio has left. */
  lemma RetunedStopExample(a: Entry, b: Entry) returns (s: Sys, s': Sys)
    requires a.ref != b.ref
    ensures Reached(s, RetunedPast(b), None) && Leads(s, HandlerGo(0, true), s')
    ensures s'.handler == StopSend(Frame(0, Stopped, Some(b.ref)), None)
  {
    ReachJoined(a, b);
    s := Joined(Retuned(a, b));
    SecondRef(a, b);
    s' := s.(sc := IDLE, handler := StopSend(Frame(0, Stopped, Some(b.ref)), None));
  }

  /** The same, then resume and hold: a held frame names it too. */
  lemma RetunedHoldExample(a: Entry, b: Entry) returns (s: Sys, s': Sys)
    requires a.ref != b.ref
    ensures Reached(s, RetunedPast(b), None) && Leads(s, HandlerGo(0, true), s')
    ensures s'.frames == s.frames + [Frame(0, Held, Some(b.ref))]
  {
    var s0, p := Retuned(a, b), RetunedPast(b);
    ReachRetuned(a, b);
    var s1 := s0.(sc := s0.sc.(held := false, resume := true));
    assert Leads(s0, ResumeMsg, s1);
    ThenCalm(s0, ResumeMsg, s1, p, None);
    s := HeldBy(s1, None, Done);
    assert Leads(s1, HoldMsg, s);
    ThenCalm(s1, HoldMsg, s, p, None);
    SecondRef(a, b);
    s' := Step(s, HandlerGo(0, true));
  }

  // --- a key under the scanner's route ---------------------------------------------------------------------

  /** The broker after the key of `x` was taken back. */
  const UNKEYED := B.State(1.5, 0.0, map[], map[], 1, {}, {}, [])

  lemma UnkeySteps(x: B.Addr)
    ensures var b := Keyed(x).(inflight := {x}, wire := [B.Key(x, false)]);
            && B.Enabled(Keyed(x), B.KeyStart(x, false)) && B.Step(Keyed(x), B.KeyStart(x, false)) == b
            && B.Enabled(b, B.KeyDone(0, true)) && B.Step(b, B.KeyDone(0, true)) == UNKEYED
  {
  }

  /** The hold for another module's key outlasts that key. */
  lemma ReachHeldUnkeyed(a: Entry, b: Entry, x: B.Addr)
    requires a.ref != b.ref && x != b.addr
    ensures Reached(Under(Cursor([a, b], None, 1, 0), b, x, Sleep(Listen, b), true, 1, 0, 1).(br := UNKEYED),
                    On(NOTHING, b), Some(b))
  {
    var s := Under(Cursor([a, b], None, 1, 0), b, x, Sleep(Listen, b), true, 1, 0, 1);
    ReachOtherKey(a, b, x);
    UnkeySteps(x);
    var s1 := s.(br := Keyed(x).(inflight := {x}, wire := [B.Key(x, false)]), handler := Keying(x, false));
    assert Leads(s, Ptt(x, false), s1);
    ThenCalm(s, Ptt(x, false), s1, On(NOTHING, b), Some(b));
    assert Leads(s1, HandlerGo(0, true), s.(br := UNKEYED));
    ThenCalm(s1, HandlerGo(0, true), s.(br := UNKEYED), On(NOTHING, b), Some(b));
  }

  /** The key of the module the radio is on then finds the scan held, and tx_route is not moved there. */
  lemma HeldKeyExample(a: Entry, b: Entry, x: B.Addr) returns (s: Sys)
    requires a.ref != b.ref && x != b.addr
    ensures Reached(s, On(NOTHING, b), Some(b)) && s.handler == Keying(b.addr, true) && s.sc.routed.None?
  {
    var s0 := Under(Cursor([a, b], None, 1, 0), b, x, Sleep(Listen, b), true, 1, 0, 1).(br := UNKEYED);
    ReachHeldUnkeyed(a, b, x);
    s := s0.(handler := Keying(b.addr, true), br := KeyingOut(UNKEYED, b.addr));
    assert Leads(s0, Ptt(b.addr, true), s);
    ThenCalm(s0, Ptt(b.addr, true), s, On(NOTHING, b), Some(b));
  }

  /** The task is in its own hold when the key it saw is taken back. */
  lemma ReachUnkeyed(a: Entry, b: Entry, x: B.Addr)
    requires a.ref != b.ref && x != b.addr
    ensures Reachable(Under(Cursor([a, b], None, 1, 0), b, x, HoldEmit(Some(1)), true, 2, 1, 2).(br := UNKEYED))
  {
    var second := Cursor([a, b], None, 1, 0);
    ReachOwnHold(a, b, x);
    var s := Under(second, b, x, HoldEmit(Some(1)), true, 2, 1, 2);
    ParksItself(a, b, x);
    Then(Under(second, b, x, HoldWait, true, 2, 1, 1), GO, s);
    UnkeySteps(x);
    var s1 := s.(br := Keyed(x).(inflight := {x}, wire := [B.Key(x, false)]), handler := Keying(x, false));
    assert Leads(s, Ptt(x, false), s1);
    Then(s, Ptt(x, false), s1);
    assert Leads(s1, HandlerGo(0, true), s.(br := UNKEYED));
    Then(s1, HandlerGo(0, true), s.(br := UNKEYED));
  }

  /** Its route to `b` starts, and the next key goes on the wire under it: tx_route leaves the keyed module. */
  lemma RouteUnderKeyExample(a: Entry, b: Entry, x: B.Addr) returns (s: Sys)
    requires a.ref != b.ref && x != b.addr
    ensures Reachable(s) && s.handler == Keying(x, true) && s.runners == map[0 := HoldRoute(b)]
  {
    var s0 := Under(Cursor([a, b], None, 1, 0), b, x, HoldEmit(Some(1)), true, 2, 1, 2).(br := UNKEYED);
    ReachUnkeyed(a, b, x);
    var s1 := s0.(runners := map[0 := HoldRoute(b)]);
    assert Leads(s0, GO, s1);
    Then(s0, GO, s1);
    s := s1.(handler := Keying(x, true), br := KeyingOut(UNKEYED, x));
    assert Leads(s1, Ptt(x, true), s);
    Then(s1, Ptt(x, true), s);
  }

  // --- a route that is taken to be right ---------------------------------------------------------------

  /** An operator hold has routed to `b`; the task is at `r`. */
  function Routed(a: Entry, b: Entry, r: Runner): Sys {
    var s := Parking(Dozing(a, b), b, None, Done);
    s.(sc := s.sc.(routed := Some(b.ref)), lock := None, handler := Ready, runners := map[0 := r])
  }

  lemma ReachRouted(a: Entry, b: Entry)
    requires a.ref != b.ref
    ensures Reached(Routed(a, b, Sleep(Listen, b)), On(NOTHING, b).(routed := Some(b)), Some(b))
  {
    var s, p := Dozing(a, b), On(NOTHING, b);
    assert Leads(s, HoldMsg, HeldBy(s, None, Done));
    ReachDozingParked(a, b, HoldMsg, None, Done);
    var s1 := Parking(s, b, None, Done).(handler := HoldingRoute(b, Done));
    assert Leads(Parking(s, b, None, Done), HandlerGo(0, true), s1);
    ThenCalm(Parking(s, b, None, Done), HandlerGo(0, true), s1, p, Some(b));
    RouteLands(a, b, s1);
  }

  lemma RouteLands(a: Entry, b: Entry, s: Sys)
    requires s == Parking(Dozing(a, b), b, None, Done).(handler := HoldingRoute(b, Done))
    requires Reached(s, On(NOTHING, b), Some(b))
    ensures Reached(Routed(a, b, Sleep(Listen, b)), On(NOTHING, b).(routed := Some(b)), Some(b))
  {
    var s' := Routed(a, b, Sleep(Listen, b));
    assert Leads(s, HandlerGo(0, true), s');
    ThenNoted(s, HandlerGo(0, true), s', On(NOTHING, b), Some(b));
    assert s'.runners[0].Sleep?;
  }

  /** The task parks. */
  lemma ReachRoutedParked(a: Entry, b: Entry)
    requires a.ref != b.ref
    ensures Reached(Routed(a, b, Parked), On(NOTHING, b).(routed := Some(b)), Some(b))
  {
    var p := On(NOTHING, b).(routed := Some(b));
    ReachRouted(a, b);
    assert Leads(Routed(a, b, Sleep(Listen, b)), GO, Routed(a, b, Wait(Listen, b)));
    ThenCalm(Routed(a, b, Sleep(Listen, b)), GO, Routed(a, b, Wait(Listen, b)), p, Some(b));
    assert Leads(Routed(a, b, Wait(Listen, b)), GO, Routed(a, b, Top));
    ThenCalm(Routed(a, b, Wait(Listen, b)), GO, Routed(a, b, Top), p, Some(b));
    assert Leads(Routed(a, b, Top), GO, Routed(a, b, Parked));
    ThenCalm(Routed(a, b, Top), GO, Routed(a, b, Parked), p, Some(b));
  }

  /** The scan goes on with a list that has the ref of `b` on `c`; it is the next to be visited. */
  function Moved(a: Entry, b: Entry, c: Entry): Sys {
    var s := Routed(a, b, Top);
    s.(sc := s.sc.(list := Cursor([a, c], None, 1, 0), held := false, resume := true))
  }

  /** ... and the task has yet to adopt that list. */
  function Resumed(a: Entry, b: Entry, c: Entry): Sys {
    var s := Routed(a, b, Parked);
    s.(sc := s.sc.(list := Cursor([a, b], Some([a, c]), 1, 0), held := false, resume := true))
  }

  lemma ReachResumedParked(a: Entry, b: Entry, c: Entry)
    requires a.ref != b.ref && c.ref == b.ref
    ensures Reached(Resumed(a, b, c), On(NOTHING, b).(routed := Some(b)), Some(b))
  {
    var s, p := Routed(a, b, Parked), On(NOTHING, b).(routed := Some(b));
    ReachRoutedParked(a, b);
    var s1 := s.(sc := s.sc.(list := Cursor([a, b], Some([a, c]), 1, 0)));
    assert Leads(s, Update([a, c]), s1);
    ThenCalm(s, Update([a, c]), s1, p, Some(b));
    assert Leads(s1, ResumeMsg, Resumed(a, b, c));
    ThenCalm(s1, ResumeMsg, Resumed(a, b, c), p, Some(b));
  }

  lemma ReachMoved(a: Entry, b: Entry, c: Entry)
    requires a.ref != b.ref && c.ref == b.ref && c != b
    ensures Reached(Moved(a, b, c), On(NOTHING, b).(routed := Some(b), relisted := true), Some(b))
  {
    ReachResumedParked(a, b, c);
    MovesOn(a, b, c);
    ThenNoted(Resumed(a, b, c), GO, Moved(a, b, c), On(NOTHING, b).(routed := Some(b)), Some(b));
    assert Moved(a, b, c).runners[0].Top?;
    assert [a, b][1] != [a, c][1];
  }

  lemma MovesOn(a: Entry, b: Entry, c: Entry)
    requires a.ref != b.ref && c.ref == b.ref
    ensures Leads(Resumed(a, b, c), GO, Moved(a, b, c))
  {
    SecondRef(a, c);
    assert NextIndex(Cursor([a, b], Some([a, c]), 1, 0), 0) == Cursor([a, c], None, 1, 0);
  }

  /** `c` is tuned and listened to, and the operator holds again. */
  function HeldAgain(a: Entry, b: Entry, c: Entry): Sys {
    HeldBy(At(Tuned(Entered(Moved(a, b, c)), c), Sleep(Listen, c)), None, Done)
  }

  lemma ReachHeldAgain(a: Entry, b: Entry, c: Entry)
    requires a.ref != b.ref && c.ref == b.ref && c != b
    ensures Reached(HeldAgain(a, b, c), Past(Some(b), Some(c), false, false, false), Some(c))
  {
    var top, p := Moved(a, b, c), On(NOTHING, b).(routed := Some(b), relisted := true);
    ReachMoved(a, b, c);
    assert At(top, Top) == top;
    ReachListen(top, p, Some(b));
    var v := Tuned(Entered(top), c);
    LeavesListen(v, c);
    ThenCalm(At(v, Body(Listen, c)), QUIET, At(v, Sleep(Listen, c)), On(p, c), Some(c));
    assert Leads(At(v, Sleep(Listen, c)), HoldMsg, HeldAgain(a, b, c));
    ThenCalm(At(v, Sleep(Listen, c)), HoldMsg, HeldAgain(a, b, c), On(p, c), Some(c));
  }

  /** The hold leaves tx_route on the module of `b`, though the radio is on that of `c`. */
  lemma MisroutedExample(a: Entry, b: Entry, c: Entry) returns (s: Sys, s': Sys)
    requires a.ref != b.ref && c.ref == b.ref && c.addr != b.addr
    ensures Reached(s, Past(Some(b), Some(c), false, false, false), Some(c)) && s.handler == HoldingEmit(Some(1), None, Done)
    ensures Leads(s, HandlerGo(0, true), s') && s'.handler.Ready? && s'.sc.routed == Some(b.ref)
  {
    var p, s0 := Past(Some(b), Some(c), false, false, false), HeldAgain(a, b, c);
    ReachHeldAgain(a, b, c);
    SecondRef(a, c);
    s := Step(s0, HandlerGo(0, true));
    assert Leads(s0, HandlerGo(0, true), s);
    ThenCalm(s0, HandlerGo(0, true), s, p, Some(c));
    s' := Step(s, HandlerGo(0, true));
  }
}

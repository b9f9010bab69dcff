/**
  Where the radio is, and where the scanner says and routes as if it were.  What the scan did to the
  radio is read off the run: its applies, the hand retunes and the lists it adopted.
 */
module ScanRadio {
  import opened Options
  import opened ScanList
  import opened ScanSystem
  import opened ScanSafety
  import opened ScanTheorems
  import opened ScanEntries
  import opened ScanLookup
  import B = PttBroker

  // --- the history of a scan --------------------------------------------------------------------

  /** In this event an apply_preset of the scan returns or raises. */
  ghost predicate ApplyEnds(s: Sys, e: Event) {
    e.RunnerGo? && e.task in s.runners && s.runners[e.task].Body? && s.runners[e.task].work.Apply?
  }

  /** An apply_preset of the scan is under way. */
  ghost predicate Applying(s: Sys) {
    exists t :: t in s.runners && s.runners[t].Body? && s.runners[t].work.Apply?
  }

  /** In this event a hand retune or preset of module `a` goes to the device. */
  ghost predicate RetuneBegins(s: Sys, s': Sys, a: B.Addr) {
    !s.handler.OnDevice? && s'.handler.OnDevice? && s'.handler.addr == a
  }

  /** In this event the scan takes over a list with other entries. */
  ghost predicate Relists(s: Sys, s': Sys) {
    s'.sc.task.Some? && s'.sc.list.entries != s.sc.list.entries
  }

  /** The entry to which this event ends a move of tx_route by the scanner. */
  ghost function RouteEnds(s: Sys, e: Event): Option<Entry> {
    if e.HandlerGo? && s.handler.HoldingRoute? then Some(s.handler.entry)
    else if e.RunnerGo? && e.task in s.runners
            && (s.runners[e.task].HoldRoute? || (s.runners[e.task].Body? && s.runners[e.task].work.RouteTx?))
    then Some(s.runners[e.task].entry)
    else None
  }

  /**
    What became of a scan: the entry it last routed to; the entry of its last apply that returned, if
    that was fully successful; whether a later apply raised; whether the module of that entry was
    retuned by hand, or the list changed, since.
   */
  datatype Past = Past(routed: Option<Entry>, applied: Option<Entry>, raised: bool, retuned: bool, relisted: bool)

  const NOTHING := Past(None, None, false, false, false)

  ghost function Noted(p: Past, s: Sys, e: Event, s': Sys): Past {
    if s'.started != s.started then NOTHING
    else if !ApplyEnds(s, e) then
      p.(routed := if RouteEnds(s, e).Some? then RouteEnds(s, e) else p.routed,
         retuned := p.retuned || (p.applied.Some? && RetuneBegins(s, s', p.applied.value.addr)),
         relisted := p.relisted || Relists(s, s'))
    else if e.choice.outcome.Raised? then p.(raised := true)
    else
      var applied := if e.choice.outcome.Good? then Some(s.runners[e.task].entry) else None;
      Past(p.routed, applied, false, false, Relists(s, s'))
  }

  ghost function History(ss: seq<Sys>, es: seq<Event>, n: nat): Past
    requires |ss| == |es| + 1 && n <= |es|
  {
    if n == 0 then NOTHING else Noted(History(ss, es, n - 1), ss[n - 1], es[n - 1], ss[n])
  }

  ghost function LastApplied(ss: seq<Sys>, es: seq<Event>, n: nat): Option<Entry>
    requires |ss| == |es| + 1 && n <= |es|
  {
    History(ss, es, n).applied
  }

  ghost function RefOf(x: Option<Entry>): Option<string> {
    if x.Some? then Some(x.value.ref) else None
  }

  ghost function AddrOf(x: Option<Entry>): Option<B.Addr> {
    if x.Some? then Some(x.value.addr) else None
  }

  /**
    The entry the radio is known to be on: an apply that returned fully successful put it there, and
    since then no apply began and no hand retune of that module did.
   */
  ghost function KnownNext(k: Option<Entry>, s: Sys, e: Event, s': Sys): Option<Entry> {
    if s'.started != s.started || Applying(s') then None
    else if ApplyEnds(s, e) then if e.choice.outcome.Good? then Some(s.runners[e.task].entry) else None
    else if k.Some? && RetuneBegins(s, s', k.value.addr) then None
    else k
  }

  ghost function Known(ss: seq<Sys>, es: seq<Event>, n: nat): Option<Entry>
    requires |ss| == |es| + 1 && n <= |es|
  {
    if n == 0 then None else KnownNext(Known(ss, es, n - 1), ss[n - 1], es[n - 1], ss[n])
  }

  /** An apply under way stays under way until its own end. */
  lemma ApplyingLasts(s: Sys, e: Event)
    requires Inv(s) && Enabled(s, e) && Applying(s) && !ApplyEnds(s, e)
    ensures Applying(Step(s, e))
  {
    var t :| t in s.runners && s.runners[t].Body? && s.runners[t].work.Apply?;
    if e.RunnerGo? {
      assert e.task != t && s.runners[e.task].Sending?;
    }
    assert t in Step(s, e).runners && Step(s, e).runners[t] == s.runners[t];
  }

  /** The radio is known to be on the last applied entry, unless an apply is under way, one raised or a retune came. */
  lemma {:induction false} KnownIs(ss: seq<Sys>, es: seq<Event>, n: nat)
    requires IsRun(ss, es) && n <= |es|
    ensures var p := History(ss, es, n);
            Known(ss, es, n) == if Applying(ss[n]) || p.raised || p.retuned then None else p.applied
  {
    if n > 0 {
      KnownIs(ss, es, n - 1);
      RunKeepsInv(ss, es, n - 1);
      assert StepAt(ss, es, n - 1);
      var s, e := ss[n - 1], es[n - 1];
      if Applying(s) && !ApplyEnds(s, e) {
        ApplyingLasts(s, e);
      }
    }
  }

  // --- the entry a frame names ------------------------------------------------------------------

  lemma TunedStep(s: Sys, e: Event)
    requires Inv(s) && Enabled(s, e) && Step(s, e).sc.task.Some?
    ensures Step(s, e).started != s.started ==> Step(s, e).sc.tuned.None?
    ensures Step(s, e).started == s.started ==> s.sc.task.Some?
    ensures Step(s, e).started == s.started ==>
              Step(s, e).sc.tuned ==
              if e.RunnerGo? then TunedAfterTurn(s, e.task, e.choice) else s.sc.tuned
  {
    if e.RunnerGo? {
      TunedTurn(s, e.task, e.choice);
    }
  }

  lemma TunedTurn(s: Sys, t: nat, c: Choice)
    requires Inv(s) && Enabled(s, RunnerGo(t, c)) && RunnerStep(s, t, c).sc.task.Some?
    ensures RunnerStep(s, t, c).started == s.started && s.sc.task.Some?
    ensures RunnerStep(s, t, c).sc.tuned == TunedAfterTurn(s, t, c)
  {
    if !s.runners[t].Sending? && !ParksItself(s, t) {
      TaskStep(s, t, c);
    }
  }

  lemma {:induction false} TunedIsLastApplied(ss: seq<Sys>, es: seq<Event>, n: nat)
    requires IsRun(ss, es) && n <= |es| && ss[n].sc.task.Some?
    ensures ss[n].sc.tuned == RefOf(LastApplied(ss, es, n))
  {
    if n > 0 {
      RunKeepsInv(ss, es, n - 1);
      assert StepAt(ss, es, n - 1);
      TunedStep(ss[n - 1], es[n - 1]);
      if ss[n].started == ss[n - 1].started {
        TunedIsLastApplied(ss, es, n - 1);
      }
    }
  }

  ghost predicate NoBody(s: Sys) {
    forall t :: t in s.runners ==> !s.runners[t].Body?
  }

  /** In this event a held or terminal frame is made up. */
  ghost predicate MakesFrame(s: Sys, s': Sys, f: Frame) {
    || (|s.frames| < |s'.frames| && s'.frames[|s.frames|] == f && f.kind.Held?)
    || (exists t :: t in s.runners && t in s'.runners && s.runners[t] != s'.runners[t]
                    && s'.runners[t] == Sending(f))
    || (s.handler.StopJoin? && s'.handler.StopSend? && s'.handler.frame == f)
  }

  lemma FrameNames(s: Sys, e: Event, f: Frame)
    requires Inv(s) && Enabled(s, e) && MakesFrame(s, Step(s, e), f) && FrameInv(s)
    ensures s.sc.task.Some? && s.started == Step(s, e).started
    ensures var tuned := if e.RunnerGo? then TunedAfterTurn(s, e.task, e.choice) else s.sc.tuned;
            f.ref == NamedRef(s.sc.(tuned := tuned))
    ensures NoBody(Step(s, e))
  {
    match e
    case RunnerGo(t, c) => TurnNames(s, t, c, f);
    case HandlerGo(pos, ok) => HandlerNames(s, pos, ok, f);
    case _ =>
  }

  lemma TurnNames(s: Sys, t: nat, c: Choice, f: Frame)
    requires Inv(s) && Enabled(s, RunnerGo(t, c)) && MakesFrame(s, RunnerStep(s, t, c), f) && FrameInv(s)
    ensures s.sc.task.Some? && s.started == RunnerStep(s, t, c).started
    ensures f.ref == NamedRef(s.sc.(tuned := TunedAfterTurn(s, t, c)))
    ensures NoBody(RunnerStep(s, t, c))
  {
    assert s.runners[t].Sending? || s.sc.task == Some(t);
    if !s.runners[t].Sending? && !ParksItself(s, t) {
      TaskStep(s, t, c);
    }
  }

  lemma HandlerNames(s: Sys, pos: nat, ok: bool, f: Frame)
    requires Inv(s) && HandlerEnabled(s, pos, ok) && MakesFrame(s, HandlerStep(s, pos, ok), f) && FrameInv(s)
    ensures s.sc.task.Some? && s.started == HandlerStep(s, pos, ok).started
    ensures f.ref == NamedRef(s.sc) && NoBody(HandlerStep(s, pos, ok))
  {
  }

  /** The ref, if an entry of the list carries it. */
  ghost function Listed(list: Cursor, ref: Option<string>): Option<string> {
    if ref.Some? && FindRef(list.entries, ref.value).Some? then ref else None
  }

  /**
    Held and stopped frames name the entry of the last apply that returned if it fully succeeded and
    is still listed, and no entry otherwise; no apply is under way when they are made up.
   */
  lemma FramesNameTunedEntry(ss: seq<Sys>, es: seq<Event>, n: nat, f: Frame)
    requires IsRun(ss, es) && n < |es| && MakesFrame(ss[n], ss[n + 1], f)
    ensures f.ref == Listed(ss[n].sc.list, RefOf(LastApplied(ss, es, n + 1)))
    ensures NoBody(ss[n + 1])
  {
    RunKeepsInv(ss, es, n);
    RunKeepsFrames(ss, es, n);
    assert StepAt(ss, es, n);
    FrameNames(ss[n], es[n], f);
    TunedIsLastApplied(ss, es, n);
  }

  /** An apply that raised ended its scan, but for a stop() that is still under way. */
  ghost predicate Ending(s: Sys) {
    s.sc.task.Some? ==> s.sc.stopping && s.sc.task.value !in s.runners
  }

  lemma EndingStep(s: Sys, e: Event)
    requires Inv(s) && Enabled(s, e) && Step(s, e).started == s.started
    requires Ending(s) || (ApplyEnds(s, e) && e.choice.outcome.Raised?)
    ensures Ending(Step(s, e))
  {
    if e.HandlerGo? {
      EndingHandler(s, e.pos, e.ok);
    }
  }

  lemma EndingHandler(s: Sys, pos: nat, ok: bool)
    requires Inv(s) && HandlerEnabled(s, pos, ok) && HandlerStep(s, pos, ok).started == s.started && Ending(s)
    ensures Ending(HandlerStep(s, pos, ok))
  {
  }

  lemma {:induction false} RaisedEndsScan(ss: seq<Sys>, es: seq<Event>, n: nat)
    requires IsRun(ss, es) && n <= |es| && History(ss, es, n).raised
    ensures Ending(ss[n])
  {
    RunKeepsInv(ss, es, n - 1);
    assert StepAt(ss, es, n - 1);
    if !ApplyEnds(ss[n - 1], es[n - 1]) {
      RaisedEndsScan(ss, es, n - 1);
    }
    EndingStep(ss[n - 1], es[n - 1]);
  }

  lemma EndingFrame(s: Sys, e: Event, f: Frame)
    requires Inv(s) && FrameInv(s) && Ending(s) && s.sc.task.Some?
    requires Enabled(s, e) && MakesFrame(s, Step(s, e), f)
    ensures f.kind.Stopped? && s.handler.StopJoin?
  {
  }

  // --- the applied entry in the list ----------------------------------------------------------------

  /** An unchanged list still has the entry last applied. */
  ghost predicate AppliedListed(p: Past, s: Sys) {
    s.sc.task.Some? && p.applied.Some? && !p.relisted ==> p.applied.value in s.sc.list.entries
  }

  lemma AppliedStep(p: Past, s: Sys, e: Event)
    requires Inv(s) && RadioInv(s) && Enabled(s, e) && AppliedListed(p, s)
    ensures AppliedListed(Noted(p, s, e, Step(s, e)), Step(s, e))
  {
    if Step(s, e).sc.task.Some? {
      TaskGoesOn(s, e);
    }
  }

  lemma TaskGoesOn(s: Sys, e: Event)
    requires Inv(s) && Enabled(s, e) && Step(s, e).sc.task.Some?
    ensures Step(s, e).started == s.started ==> s.sc.task.Some?
    ensures ApplyEnds(s, e) && e.choice.outcome.Raised? ==> Step(s, e).sc.list == s.sc.list
  {
    if e.RunnerGo? {
      TunedTurn(s, e.task, e.choice);
    }
  }

  lemma {:induction false} AppliedIsListed(ss: seq<Sys>, es: seq<Event>, n: nat)
    requires IsRun(ss, es) && n <= |es|
    ensures AppliedListed(History(ss, es, n), ss[n])
  {
    if n > 0 {
      AppliedIsListed(ss, es, n - 1);
      RunKeepsInv(ss, es, n - 1);
      RunKeepsEntries(ss, es, n - 1);
      assert StepAt(ss, es, n - 1);
      AppliedStep(History(ss, es, n - 1), ss[n - 1], es[n - 1]);
    }
  }

  /** The list's entry with the ref of the last applied one is that one, or the list has changed since. */
  lemma ListedIsApplied(ss: seq<Sys>, es: seq<Event>, n: nat, p: nat)
    requires IsRun(ss, es) && n <= |es| && ss[n].sc.task.Some?
    requires LastApplied(ss, es, n).Some? && p < |ss[n].sc.list.entries|
    requires ss[n].sc.list.entries[p].ref == LastApplied(ss, es, n).value.ref
    ensures ss[n].sc.list.entries[p] == LastApplied(ss, es, n).value || History(ss, es, n).relisted
  {
    if !History(ss, es, n).relisted {
      AppliedIsListed(ss, es, n);
      RunKeepsEntries(ss, es, n);
    }
  }

  ghost function NamedEntry(list: Cursor, f: Frame): Option<Entry> {
    if f.ref.Some? && FindRef(list.entries, f.ref.value).Some? then
      Some(list.entries[FindRef(list.entries, f.ref.value).value])
    else None
  }

  /**
    A frame names an entry the radio is not known to be on if and only if the scan's last apply
    raised, the module of the entry last applied was retuned by hand since, or the list has put
    another entry under its ref.  The first only befalls a terminal frame, of the raising apply or of
    a stop() it ran into; the last only after a list was adopted.
   */
  lemma FrameMisleadsIff(ss: seq<Sys>, es: seq<Event>, n: nat, f: Frame, x: Entry)
    requires IsRun(ss, es) && n < |es| && MakesFrame(ss[n], ss[n + 1], f)
    requires NamedEntry(ss[n].sc.list, f) == Some(x)
    ensures var p := History(ss, es, n + 1);
            && (Known(ss, es, n + 1) != Some(x) <==> p.raised || p.retuned || p.applied != Some(x))
            && (p.raised ==> f.kind.Stopped? && (ApplyEnds(ss[n], es[n]) || ss[n].handler.StopJoin?))
            && (p.applied != Some(x) ==> p.relisted)
  {
    FramesNameTunedEntry(ss, es, n, f);
    KnownIs(ss, es, n + 1);
    if History(ss, es, n + 1).raised {
      RaisedFrames(ss, es, n, f);
    }
    if LastApplied(ss, es, n + 1) != Some(x) {
      RelistedFrames(ss, es, n, f);
    }
  }

  lemma RaisedFrames(ss: seq<Sys>, es: seq<Event>, n: nat, f: Frame)
    requires IsRun(ss, es) && n < |es| && MakesFrame(ss[n], ss[n + 1], f) && History(ss, es, n + 1).raised
    ensures f.kind.Stopped? && (ApplyEnds(ss[n], es[n]) || ss[n].handler.StopJoin?)
  {
    RunKeepsInv(ss, es, n);
    RunKeepsFrames(ss, es, n);
    assert StepAt(ss, es, n);
    if ApplyEnds(ss[n], es[n]) {
      ApplyFrame(ss[n], es[n], f);
    } else {
      FrameNames(ss[n], es[n], f);
      RaisedEndsScan(ss, es, n);
      EndingFrame(ss[n], es[n], f);
    }
  }

  lemma RelistedFrames(ss: seq<Sys>, es: seq<Event>, n: nat, f: Frame)
    requires IsRun(ss, es) && n < |es| && MakesFrame(ss[n], ss[n + 1], f)
    requires NamedEntry(ss[n].sc.list, f).Some? && NamedEntry(ss[n].sc.list, f) != LastApplied(ss, es, n + 1)
    ensures History(ss, es, n + 1).relisted
  {
    FramesNameTunedEntry(ss, es, n, f);
    RunKeepsInv(ss, es, n);
    RunKeepsFrames(ss, es, n);
    assert StepAt(ss, es, n);
    FrameNames(ss[n], es[n], f);
    if ApplyEnds(ss[n], es[n]) {
      ApplyFrame(ss[n], es[n], f);
    }
    assert LastApplied(ss, es, n + 1) == LastApplied(ss, es, n);
    ListedIsApplied(ss, es, n, FindRef(ss[n].sc.list.entries, f.ref.value).value);
  }

  /** No frame comes of an apply that returns fully successful, and only a terminal one of one that raises. */
  lemma ApplyFrame(s: Sys, e: Event, f: Frame)
    requires Inv(s) && FrameInv(s) && Enabled(s, e) && MakesFrame(s, Step(s, e), f) && ApplyEnds(s, e)
    ensures !e.choice.outcome.Good? && f.kind.Stopped?
  {
  }

  // --- where a hold routes ------------------------------------------------------------------------------

  ghost predicate MayRoute(keyed: Option<B.Addr>, a: B.Addr, br: B.State) {
    keyed == Some(a) || (keyed.None? && !B.PttActive(br))
  }

  /** While a hold has the step lock nothing is applied. */
  lemma {:induction false} AppliedLasts(ss: seq<Sys>, es: seq<Event>, n: nat, m: nat)
    requires IsRun(ss, es) && n <= m <= |es|
    requires forall k :: n <= k < m ==> NoBody(ss[k]) && ss[k].lock.Some?
    ensures LastApplied(ss, es, m) == LastApplied(ss, es, n)
  {
    if n < m {
      AppliedLasts(ss, es, n, m - 1);
      RunKeepsInv(ss, es, m - 1);
      assert StepAt(ss, es, m - 1);
      LockedGoesOn(ss[m - 1], es[m - 1]);
    }
  }

  lemma LockedGoesOn(s: Sys, e: Event)
    requires Inv(s) && Enabled(s, e) && NoBody(s) && s.lock.Some?
    ensures Step(s, e).started == s.started
  {
    if s.lock.value.ByRunner? {
      assert !s.runners[s.lock.value.task].Sending?;
    }
    if e.RunnerGo? && !s.runners[e.task].Sending? && !ParksItself(s, e.task) {
      TaskStep(s, e.task, e.choice);
    }
  }

  lemma AppliedDuringHold(ss: seq<Sys>, es: seq<Event>, n: nat, p: nat, m: nat)
    requires IsRun(ss, es) && n < m < |es| && HandlerEmits(ss, es, n, p) && NoHandlerTurn(es, n, m)
    ensures LastApplied(ss, es, m) == LastApplied(ss, es, n + 1)
  {
    forall k | n < k < m
      ensures NoBody(ss[k]) && ss[k].lock.Some?
    {
      SinceHeldFrame(ss, es, n, p, k);
      RunKeepsInv(ss, es, k);
    }
    AppliedLasts(ss, es, n + 1, m);
  }

  lemma AppliedDuringOwnHold(ss: seq<Sys>, es: seq<Event>, n: nat, t: nat, p: nat, m: nat)
    requires IsRun(ss, es) && n < m < |es| && TaskEmits(ss, es, n, t, p) && NoTurn(es, t, n, m)
    ensures LastApplied(ss, es, m) == LastApplied(ss, es, n + 1)
  {
    forall k | n < k < m
      ensures NoBody(ss[k]) && ss[k].lock.Some?
    {
      SinceOwnFrame(ss, es, n, t, p, k);
      RunKeepsInv(ss, es, k);
    }
    AppliedLasts(ss, es, n + 1, m);
  }

  /** The list in which the handler's hold looks its position up. */
  ghost function LookupList(ss: seq<Sys>, es: seq<Event>, n: nat, m: nat): seq<Entry>
    requires |ss| == |es| + 1 && n < m <= |es| && ss[n + 1].sc.task.Some?
  {
    if Adopts(ss, es, n, m) then ss[n + 1].sc.list.pending.value else ss[n + 1].sc.list.entries
  }

  /**
    "Held on an entry that is actually tuned: PTT must key that module."  Over every run the handler's
    hold moves tx_route to another module than the one last applied if and only if the scan still
    runs and the list it looks its position up in has another module there, and the route may go
    to it.  Without a list adopted during the await that list was adopted before: it has the tuned ref
    on another module.
   */
  lemma HandlerStraysIff(ss: seq<Sys>, es: seq<Event>, n: nat, p: nat, m: nat)
    requires IsRun(ss, es) && n < m < |es| && HandlerEmits(ss, es, n, p)
    requires NoHandlerTurn(es, n, m) && es[m].HandlerGo?
    ensures Driven(ss[n + 1]) && LastApplied(ss, es, m).Some?
    ensures var s0, h, a := ss[n + 1], ss[m + 1].handler, LastApplied(ss, es, m).value;
            var list := LookupList(ss, es, n, m);
            && (h.HoldingRoute? && h.entry.addr != a.addr <==>
                  && ss[m].sc.task.Some? && s0.sc.routed != s0.sc.tuned && p < |list|
                  && MayRoute(s0.handler.keyed, list[p].addr, ss[m].br) && list[p].addr != a.addr)
            && (h.HoldingRoute? && h.entry.addr != a.addr && !Adopts(ss, es, n, m) ==>
                  h.entry.ref == a.ref && History(ss, es, n + 1).relisted)
  {
    SinceHeldFrame(ss, es, n, p, m);
    RunKeepsInv(ss, es, m);
    assert StepAt(ss, es, m);
    HeldRoute(ss[n + 1], ss[m], TurnIn(es, ss[n + 1].sc.task.value, n, m), es[m].pos, es[m].ok, p);
    HandlerEntry(ss, es, n, p);
    AppliedDuringHold(ss, es, n, p, m);
  }

  /** The handler's turn after its held frame, told from the held frame. */
  lemma HeldRoute(s0: Sys, s: Sys, turned: bool, pos: nat, ok: bool, p: nat)
    requires Inv(s) && Driven(s0) && Since(s0, s, turned) && s.handler.HoldingEmit? && s.handler.pos == Some(p)
    ensures var h := HandlerStep(s, pos, ok).handler;
            var list := if WillAdopt(s0) && turned && s.sc.task.Some? then s0.sc.list.pending.value
                        else s0.sc.list.entries;
            && (h.HoldingRoute? <==>
                  && s.sc.task.Some? && s0.sc.routed != s0.sc.tuned && p < |list|
                  && MayRoute(s0.handler.keyed, list[p].addr, s.br))
            && (h.HoldingRoute? ==> p < |list| && h.entry == list[p])
  {
    HeldTurn(s, pos, ok, p);
  }

  lemma HandlerEntry(ss: seq<Sys>, es: seq<Event>, n: nat, p: nat)
    requires IsRun(ss, es) && n < |es| && HandlerEmits(ss, es, n, p)
    ensures HoldsApplied(ss, es, n + 1, p)
  {
    RunKeepsInv(ss, es, n + 1);
    assert StepAt(ss, es, n);
    EmittedPosition(ss[n], es[n].pos, es[n].ok, p);
    HeldEntry(ss, es, n + 1, p);
  }

  /** The position in a held frame has the ref last applied; if not its entry, the list has changed. */
  ghost predicate HoldsApplied(ss: seq<Sys>, es: seq<Event>, n: nat, p: nat)
    requires |ss| == |es| + 1 && n <= |es|
  {
    && p < |ss[n].sc.list.entries| && LastApplied(ss, es, n).Some?
    && ss[n].sc.list.entries[p].ref == LastApplied(ss, es, n).value.ref
    && (ss[n].sc.list.entries[p] == LastApplied(ss, es, n).value || History(ss, es, n).relisted)
  }

  lemma HeldEntry(ss: seq<Sys>, es: seq<Event>, n: nat, p: nat)
    requires IsRun(ss, es) && n <= |es| && ss[n].sc.task.Some?
    requires p < |ss[n].sc.list.entries| && Some(ss[n].sc.list.entries[p].ref) == ss[n].sc.tuned
    ensures HoldsApplied(ss, es, n, p)
  {
    TunedIsLastApplied(ss, es, n);
    ListedIsApplied(ss, es, n, p);
  }

  /**
    The same of the scan task's own hold: the list is that of its held frame, or the one a skip of the
    held entry adopted since.
   */
  lemma TaskStraysIff(ss: seq<Sys>, es: seq<Event>, n: nat, t: nat, p: nat, m: nat)
    requires IsRun(ss, es) && n < m < |es| && TaskEmits(ss, es, n, t, p)
    requires NoTurn(es, t, n, m) && TurnAt(es, t, m)
    ensures LastApplied(ss, es, m).Some?
    ensures var s0, rs, a := ss[n + 1], ss[m + 1].runners, LastApplied(ss, es, m).value;
            var adopted := AdoptedIn(ss, es, n, m);
            var list := if adopted.Some? then adopted.value else s0.sc.list.entries;
            var strays := t in rs && rs[t].HoldRoute? && rs[t].entry.addr != a.addr;
            && (strays <==> && s0.sc.routed != s0.sc.tuned && p < |list| && !B.PttActive(ss[m].br)
                            && list[p].addr != a.addr)
            && (strays && adopted.None? ==> rs[t].entry.ref == a.ref && History(ss, es, n + 1).relisted)
  {
    SinceOwnFrame(ss, es, n, t, p, m);
    assert StepAt(ss, es, m);
    OwnTurn(ss[m], t, es[m].choice, p);
    OwnEntry(ss, es, n, t, p);
    AppliedDuringOwnHold(ss, es, n, t, p, m);
  }

  lemma OwnEntry(ss: seq<Sys>, es: seq<Event>, n: nat, t: nat, p: nat)
    requires IsRun(ss, es) && n < |es| && TaskEmits(ss, es, n, t, p)
    ensures HoldsApplied(ss, es, n + 1, p)
  {
    RunKeepsInv(ss, es, n + 1);
    assert StepAt(ss, es, n);
    OwnPosition(ss[n], t, es[n].choice, p);
    HeldEntry(ss, es, n + 1, p);
  }

  // --- where tx_route stays ---------------------------------------------------------------------------

  ghost function RoutedAfter(s: Sys, e: Event, s': Sys): Option<string> {
    if s'.started != s.started then None
    else if RouteEnds(s, e).Some? then RefOf(RouteEnds(s, e)) else s.sc.routed
  }

  lemma RoutedStep(s: Sys, e: Event)
    requires Inv(s) && Enabled(s, e) && Step(s, e).sc.task.Some?
    ensures Step(s, e).sc.routed == RoutedAfter(s, e, Step(s, e))
  {
    match e
    case RunnerGo(t, c) => RoutedTurn(s, t, c);
    case HandlerGo(pos, ok) => RoutedHandler(s, pos, ok);
    case _ => RoutedMessage(s, e);
  }

  lemma RoutedMessage(s: Sys, e: Event)
    requires Enabled(s, e) && !e.RunnerGo? && !e.HandlerGo? && Step(s, e).sc.task.Some?
    ensures Step(s, e).sc.routed == RoutedAfter(s, e, Step(s, e))
  {
  }

  lemma RoutedHandler(s: Sys, pos: nat, ok: bool)
    requires Inv(s) && HandlerEnabled(s, pos, ok) && HandlerStep(s, pos, ok).sc.task.Some?
    ensures HandlerStep(s, pos, ok).sc.routed == RoutedAfter(s, HandlerGo(pos, ok), HandlerStep(s, pos, ok))
  {
  }

  lemma RoutedTurn(s: Sys, t: nat, c: Choice)
    requires Inv(s) && Enabled(s, RunnerGo(t, c)) && RunnerStep(s, t, c).sc.task.Some?
    ensures RunnerStep(s, t, c).sc.routed == RoutedAfter(s, RunnerGo(t, c), RunnerStep(s, t, c))
  {
    TunedTurn(s, t, c);
    match s.runners[t]
    case Body(work, entry) => RoutedBody(s.(lock := None), t, work, entry, c);
    case Top => RoutedTop(s, t, c);
    case _ => RoutedElsewhere(s, t, c);
  }

  lemma RoutedTop(s: Sys, t: nat, c: Choice)
    requires t in s.runners && s.runners[t].Top?
    ensures RunnerStep(s, t, c).sc.task.Some? ==> RunnerStep(s, t, c).sc.routed == s.sc.routed
  {
  }

  lemma RoutedElsewhere(s: Sys, t: nat, c: Choice)
    requires t in s.runners && !s.runners[t].Top? && !s.runners[t].Body?
    ensures var s', r := RunnerStep(s, t, c), s.runners[t];
            s'.sc.task.Some? ==> s'.sc.routed == if r.HoldRoute? then Some(r.entry.ref) else s.sc.routed
  {
  }

  lemma RoutedBody(s: Sys, t: nat, work: Work, entry: Entry, c: Choice)
    ensures var s' := LeaveBody(s, t, work, entry, c);
            s'.sc.task.Some? ==> s'.sc.routed == if work.RouteTx? then Some(entry.ref) else s.sc.routed
  {
    match work
    case Apply =>
    case Listen => RoutedCarrier(s, t, work, entry, c);
    case Poll(_) => RoutedCarrier(s, t, work, entry, c);
    case _ =>
  }

  lemma RoutedCarrier(s: Sys, t: nat, work: Work, entry: Entry, c: Choice)
    requires work.Listen? || work.Poll?
    ensures var s' := LeaveBody(s, t, work, entry, c); s'.sc.task.Some? ==> s'.sc.routed == s.sc.routed
  {
  }

  lemma {:induction false} RoutedIsLast(ss: seq<Sys>, es: seq<Event>, n: nat)
    requires IsRun(ss, es) && n <= |es| && ss[n].sc.task.Some?
    ensures ss[n].sc.routed == RefOf(History(ss, es, n).routed)
  {
    if n > 0 {
      RunKeepsInv(ss, es, n - 1);
      assert StepAt(ss, es, n - 1);
      TaskGoesOn(ss[n - 1], es[n - 1]);
      RoutedStep(ss[n - 1], es[n - 1]);
      if ss[n].started == ss[n - 1].started {
        RoutedIsLast(ss, es, n - 1);
      }
    }
  }

  /** `hold` takes tx_route to be right if it was last moved for the ref that is tuned; its module may differ. */
  ghost predicate Misrouted(p: Past) {
    p.routed.Some? && p.applied.Some? && p.routed.value.ref == p.applied.value.ref
    && p.routed.value.addr != p.applied.value.addr
  }

  /** tx_route is not where the scan last applied an entry. */
  ghost predicate Astray(p: Past) {
    AddrOf(p.routed) != AddrOf(p.applied)
  }

  /**
    With the scan running, and nothing keyed or the module last applied about to be, the handler's hold
    should leave tx_route on that module.  Over every run it leaves it elsewhere without moving it if and
    only if the scan's last route was for the ref last applied while that was on another module; or the
    hold is for a key, and the list it looks its position up in has another module there.
   */
  lemma HandlerLeavesAstrayIff(ss: seq<Sys>, es: seq<Event>, n: nat, p: nat, m: nat)
    requires IsRun(ss, es) && n < m < |es| && HandlerEmits(ss, es, n, p)
    requires NoHandlerTurn(es, n, m) && es[m].HandlerGo?
    ensures Driven(ss[n + 1]) && LastApplied(ss, es, m).Some?
    ensures var h, past, keyed := ss[m + 1].handler, History(ss, es, m), ss[n + 1].handler.keyed;
            var a, list := past.applied.value, LookupList(ss, es, n, m);
            var should := ss[m].sc.task.Some? && MayRoute(keyed, a.addr, ss[m].br);
            should && !h.HoldingRoute? && !h.Dead? && Astray(past) <==>
            && should
            && (|| Misrouted(past)
                || (&& keyed.Some? && RefOf(past.routed) != Some(a.ref) && Astray(past)
                    && p < |list| && list[p].addr != a.addr))
  {
    SinceHeldFrame(ss, es, n, p, m);
    RunKeepsInv(ss, es, m);
    assert StepAt(ss, es, m);
    HeldRoute(ss[n + 1], ss[m], TurnIn(es, ss[n + 1].sc.task.value, n, m), es[m].pos, es[m].ok, p);
    HandlerEntry(ss, es, n, p);
    AppliedDuringHold(ss, es, n, p, m);
    if ss[m].sc.task.Some? {
      HeldDead(ss[n + 1], ss[m], TurnIn(es, ss[n + 1].sc.task.value, n, m), es[m].pos, es[m].ok, p);
      TunedIsLastApplied(ss, es, m);
      RoutedIsLast(ss, es, m);
    }
  }

  lemma HeldDead(s0: Sys, s: Sys, turned: bool, pos: nat, ok: bool, p: nat)
    requires Inv(s) && Driven(s0) && Since(s0, s, turned) && s.handler.HoldingEmit? && s.handler.pos == Some(p)
    requires s.sc.task.Some?
    ensures var list := if WillAdopt(s0) && turned then s0.sc.list.pending.value else s0.sc.list.entries;
            HandlerStep(s, pos, ok).handler.Dead? <==> s0.sc.routed != s0.sc.tuned && |list| <= p
  {
    HeldTurn(s, pos, ok, p);
  }

  /** The same of the scan task's own hold. */
  lemma TaskLeavesAstrayIff(ss: seq<Sys>, es: seq<Event>, n: nat, t: nat, p: nat, m: nat)
    requires IsRun(ss, es) && n < m < |es| && TaskEmits(ss, es, n, t, p)
    requires NoTurn(es, t, n, m) && TurnAt(es, t, m) && !B.PttActive(ss[m].br)
    ensures var rs, past := ss[m + 1].runners, History(ss, es, m);
            t in rs && !rs[t].HoldRoute? && ss[m + 1].sc.task.Some? && Astray(past) <==> Misrouted(past)
  {
    SinceOwnFrame(ss, es, n, t, p, m);
    assert StepAt(ss, es, m);
    OwnTurn(ss[m], t, es[m].choice, p);
    OwnEntry(ss, es, n, t, p);
    AppliedDuringOwnHold(ss, es, n, t, p, m);
    TunedIsLastApplied(ss, es, m);
    RoutedIsLast(ss, es, m);
  }

  // --- the key of the module last applied ----------------------------------------------------------------

  /** A hold made for a key routes to the module of that key only. */
  ghost predicate RoutesToKey(h: Handler) {
    h.HoldingRoute? && h.next.KeyUp? ==> h.entry.addr == h.next.addr
  }

  lemma RoutesToKeyStep(s: Sys, e: Event)
    requires Inv(s) && Enabled(s, e) && RoutesToKey(s.handler)
    ensures RoutesToKey(Step(s, e).handler)
  {
    if e.RunnerGo? && !s.runners[e.task].Sending? && !ParksItself(s, e.task) {
      TaskStep(s, e.task, e.choice);
    }
  }

  lemma {:induction false} RunRoutesToKey(ss: seq<Sys>, es: seq<Event>, n: nat)
    requires IsRun(ss, es) && n < |ss|
    ensures RoutesToKey(ss[n].handler)
  {
    if n > 0 {
      RunRoutesToKey(ss, es, n - 1);
      RunKeepsInv(ss, es, n - 1);
      assert StepAt(ss, es, n - 1);
      RoutesToKeyStep(ss[n - 1], es[n - 1]);
    }
  }

  /** In this event the key of module `a` goes on the wire. */
  ghost predicate KeysOut(s: Sys, s': Sys, a: B.Addr) {
    !s.handler.Keying? && s'.handler == Keying(a, true)
  }

  /**
    Over every run the key of the module last applied goes on the wire with tx_route elsewhere if and
    only if it was elsewhere, and either the message found the scan held already or the hold made for
    it did not move tx_route.
   */
  lemma KeyOutAstrayIff(ss: seq<Sys>, es: seq<Event>, k: nat, a: B.Addr)
    requires IsRun(ss, es) && k < |es| && KeysOut(ss[k], ss[k + 1], a) && ss[k + 1].sc.task.Some?
    requires AddrOf(LastApplied(ss, es, k)) == Some(a)
    ensures LastApplied(ss, es, k + 1) == LastApplied(ss, es, k)
    ensures Astray(History(ss, es, k + 1)) <==>
            && Astray(History(ss, es, k))
            && ((es[k] == Ptt(a, true) && ss[k].sc.held) || (es[k].HandlerGo? && ss[k].handler.HoldingEmit?))
  {
    RunKeepsInv(ss, es, k);
    RunRoutesToKey(ss, es, k);
    assert StepAt(ss, es, k);
    KeyOutEvent(ss[k], es[k], a);
  }

  lemma KeyOutEvent(s: Sys, e: Event, a: B.Addr)
    requires Inv(s) && RoutesToKey(s.handler) && Enabled(s, e)
    requires KeysOut(s, Step(s, e), a) && Step(s, e).sc.task.Some?
    ensures !ApplyEnds(s, e) && Step(s, e).started == s.started
    ensures if RouteEnds(s, e).Some? then RouteEnds(s, e).value.addr == a
            else (e == Ptt(a, true) && s.sc.held) || (e.HandlerGo? && s.handler.HoldingEmit?)
    ensures RouteEnds(s, e).Some? ==> !e.Ptt? && !s.handler.HoldingEmit?
  {
    match e
    case RunnerGo(t, c) =>
      if !s.runners[t].Sending? && !ParksItself(s, t) {
        TaskStep(s, t, c);
      }
    case HandlerGo(pos, ok) => KeyOutTurn(s, pos, ok, a);
    case _ =>
  }

  lemma KeyOutTurn(s: Sys, pos: nat, ok: bool, a: B.Addr)
    requires Inv(s) && RoutesToKey(s.handler) && HandlerEnabled(s, pos, ok)
    requires KeysOut(s, HandlerStep(s, pos, ok), a) && HandlerStep(s, pos, ok).sc.task.Some?
    ensures HandlerStep(s, pos, ok).started == s.started
    ensures s.handler.HoldingEmit? || (s.handler.HoldingRoute? && s.handler.entry.addr == a)
  {
  }
}

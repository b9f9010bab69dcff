/**
  PTT accounting of the broker: the `_ptt`, `_ptt_inflight` and `_unkeying` collections, the
  dead-man tasks behind them and the fail-safe unkeys they put on the wire.

  `State` is what the control loop sees between two awaits, `Event` is one atomic region of the
  message handler, of a dead-man task or of the clock.  `Broker` at the end of the file is the
  object itself, each of its methods proved to take exactly one such step.
 */
module PttBroker {

  /** A module address, `(slot, module)` in command frames. */
  datatype Addr = Addr(slot: int, unit: string)

  /** A PTT command waiting for, or holding, its slot's control line; oldest first. */
  datatype Op = Key(addr: Addr, on: bool) | Failsafe(addr: Addr)

  /** A dead-man task that is still asleep and has not been cancelled. */
  datatype Timer = Timer(addr: Addr, deadline: real)

  datatype State = State(
    timeout: real,            // dead_man_timeout
    now: real,
    ptt: map<Addr, nat>,      // _ptt: armed modules and their dead-man task
    timers: map<nat, Timer>,  // sleeping dead-man tasks
    nextTask: nat,
    inflight: set<Addr>,      // _ptt_inflight
    unkeying: set<Addr>,      // _unkeying
    wire: seq<Op>
  )

  datatype Event =
    | KeyStart(addr: Addr, on: bool)  // the handler puts `do ptt <on>` on the wire
    | KeyDone(pos: nat, ok: bool)     // its result comes back
    | Keepalive(addr: Addr)
    | Fire(task: nat)                 // a dead-man sleep ends
    | FailsafeDone(pos: nat, ok: bool)
    | Tick(dt: real)

  predicate SlotBusy(s: State, slot: int) {
    exists a :: a in s.ptt.Keys + s.inflight + s.unkeying && a.slot == slot
  }

  predicate PttActive(s: State) {
    s.ptt != map[] || s.inflight != {} || s.unkeying != {}
  }

  function Init(timeout: real): State {
    State(timeout, 0.0, map[], map[], 0, {}, {}, [])
  }

  // --- the atomic regions --------------------------------------------------------------

  function RemoveAt(w: seq<Op>, i: nat): seq<Op>
    requires i < |w|
  {
    w[..i] + w[i + 1..]
  }

  /** The slot lock is fair: the command at `i` is on the device only once it is the slot's oldest. */
  predicate AtHead(w: seq<Op>, i: nat)
    requires i < |w|
  {
    forall j :: 0 <= j < i ==> w[j].addr.slot != w[i].addr.slot
  }

  function Disarm(s: State, a: Addr): State {
    if a in s.ptt then s.(ptt := s.ptt - {a}, timers := s.timers - {s.ptt[a]}) else s
  }

  function Arm(s: State, a: Addr): State {
    var d := Disarm(s, a);
    d.(ptt := d.ptt[a := d.nextTask],
       timers := d.timers[d.nextTask := Timer(a, d.now + d.timeout)],
       nextTask := d.nextTask + 1)
  }

  /** Commands fail fast (paused or vanished slot) in any order; a result needs the line. */
  predicate Enabled(s: State, e: Event) {
    match e
    case KeyStart(_, _) => s.inflight == {}
    case KeyDone(i, ok) => i < |s.wire| && s.wire[i].Key? && (ok ==> AtHead(s.wire, i))
    case Keepalive(_) => s.inflight == {}
    case Fire(t) => t in s.timers && s.timers[t].deadline <= s.now
    case FailsafeDone(i, ok) => i < |s.wire| && s.wire[i].Failsafe? && (ok ==> AtHead(s.wire, i))
    // Due tasks run before the clock moves on.
    case Tick(dt) => 0.0 <= dt && forall t :: t in s.timers ==> s.now + dt <= s.timers[t].deadline
  }

  function Step(s: State, e: Event): State
    requires Enabled(s, e)
  {
    match e
    case KeyStart(a, on) => s.(inflight := s.inflight + {a}, wire := s.wire + [Key(a, on)])
    case KeyDone(i, ok) =>
      var op := s.wire[i];
      var s1 := if !ok then s else if op.on then Arm(s, op.addr) else Disarm(s, op.addr);
      s1.(inflight := s1.inflight - {op.addr}, wire := RemoveAt(s1.wire, i))
    case Keepalive(a) => if a in s.ptt then Arm(s, a) else s
    case Fire(t) =>
      var a := s.timers[t].addr;
      s.(ptt := s.ptt - {a}, timers := s.timers - {t},
         unkeying := s.unkeying + {a}, wire := s.wire + [Failsafe(a)])
    case FailsafeDone(i, _) =>
      s.(unkeying := s.unkeying - {s.wire[i].addr}, wire := RemoveAt(s.wire, i))
    case Tick(dt) => s.(now := s.now + dt)
  }

  ghost predicate IsRun(ss: seq<State>, es: seq<Event>) {
    && |ss| == |es| + 1
    && ss[0] == Init(ss[0].timeout)
    && ss[0].timeout >= 0.0
    && forall k :: 0 <= k < |es| ==> Enabled(ss[k], es[k]) && ss[k + 1] == Step(ss[k], es[k])
  }

  // --- what every region keeps ----------------------------------------------------------

  /** `_ptt` entries and sleeping dead-man tasks are in bijection, each within its timeout. */
  ghost predicate TimersMatch(s: State) {
    && (forall a :: a in s.ptt ==> s.ptt[a] in s.timers && s.timers[s.ptt[a]].addr == a)
    && (forall t :: t in s.timers ==> s.timers[t].addr in s.ptt && s.ptt[s.timers[t].addr] == t)
    && (forall t :: t in s.timers ==> t < s.nextTask)
    && (forall t :: t in s.timers ==> s.now <= s.timers[t].deadline <= s.now + s.timeout)
  }

  /** `_ptt_inflight` is exactly the one PTT command on the wire; every `_unkeying` member has one. */
  ghost predicate WireMatches(s: State) {
    && (forall i :: 0 <= i < |s.wire| && s.wire[i].Key? ==> s.inflight == {s.wire[i].addr})
    && (forall i, j :: 0 <= i < j < |s.wire| ==> !s.wire[i].Key? || !s.wire[j].Key?)
    && (s.inflight != {} ==> exists i :: 0 <= i < |s.wire| && s.wire[i].Key?)
    && (forall a :: a in s.unkeying ==> Failsafe(a) in s.wire)
  }

  ghost predicate Inv(s: State) {
    TimersMatch(s) && WireMatches(s) && s.timeout >= 0.0
  }

  lemma RemoveAtIndex(w: seq<Op>, i: nat)
    requires i < |w|
    ensures |RemoveAt(w, i)| == |w| - 1
    ensures forall j :: 0 <= j < i ==> RemoveAt(w, i)[j] == w[j]
    ensures forall j :: i <= j < |w| - 1 ==> RemoveAt(w, i)[j] == w[j + 1]
    ensures forall o :: o in w && o != w[i] ==> o in RemoveAt(w, i)
  {
    forall o | o in w && o != w[i]
      ensures o in RemoveAt(w, i)
    {
      var j :| 0 <= j < |w| && w[j] == o;
      assert RemoveAt(w, i)[if j < i then j else j - 1] == o;
    }
  }

  lemma DisarmKeepsTimers(s: State, a: Addr)
    requires TimersMatch(s)
    ensures TimersMatch(Disarm(s, a))
  {
  }

  lemma ArmKeepsTimers(s: State, a: Addr)
    requires TimersMatch(s) && s.timeout >= 0.0
    ensures TimersMatch(Arm(s, a))
  {
    DisarmKeepsTimers(s, a);
  }

  lemma TimersStep(s: State, e: Event)
    requires Inv(s) && Enabled(s, e)
    ensures TimersMatch(Step(s, e))
  {
    match e
    case KeyDone(i, ok) =>
      ArmKeepsTimers(s, s.wire[i].addr);
      DisarmKeepsTimers(s, s.wire[i].addr);
    case Keepalive(a) =>
      ArmKeepsTimers(s, a);
    case _ =>
  }

  lemma KeyDoneWire(s: State, i: nat, ok: bool)
    requires WireMatches(s) && Enabled(s, KeyDone(i, ok))
    ensures WireMatches(Step(s, KeyDone(i, ok)))
  {
    RemoveAtIndex(s.wire, i);
  }

  lemma FireWire(s: State, t: nat)
    requires WireMatches(s) && Enabled(s, Fire(t))
    ensures WireMatches(Step(s, Fire(t)))
  {
    var s' := Step(s, Fire(t));
    assert s'.wire[|s.wire|] == Failsafe(s.timers[t].addr);
    if s.inflight != {} {
      var i :| 0 <= i < |s.wire| && s.wire[i].Key?;
      assert s'.wire[i].Key?;
    }
  }

  lemma FailsafeDoneWire(s: State, i: nat, ok: bool)
    requires WireMatches(s) && Enabled(s, FailsafeDone(i, ok))
    ensures WireMatches(Step(s, FailsafeDone(i, ok)))
  {
    RemoveAtIndex(s.wire, i);
    var s' := Step(s, FailsafeDone(i, ok));
    if s.inflight != {} {
      var j :| 0 <= j < |s.wire| && s.wire[j].Key?;
      assert s'.wire[if j < i then j else j - 1].Key?;
    }
  }

  lemma InvStep(s: State, e: Event)
    requires Inv(s) && Enabled(s, e)
    ensures Inv(Step(s, e))
  {
    TimersStep(s, e);
    match e
    case KeyStart(a, on) =>
      assert Step(s, e).wire[|s.wire|] == Key(a, on);
    case KeyDone(i, ok) => KeyDoneWire(s, i, ok);
    case Fire(t) => FireWire(s, t);
    case FailsafeDone(i, ok) => FailsafeDoneWire(s, i, ok);
    case _ =>
  }

  /** Every reachable state pairs armed modules with dead-man tasks one to one. */
  lemma {:induction false} RunKeepsInv(ss: seq<State>, es: seq<Event>, n: nat)
    requires IsRun(ss, es) && n < |ss|
    ensures Inv(ss[n]) && ss[n].timeout == ss[0].timeout
  {
    if n > 0 {
      RunKeepsInv(ss, es, n - 1);
      InvStep(ss[n - 1], es[n - 1]);
    }
  }

  // --- slot_busy covers every key -------------------------------------------------------

  /** What an observer of the control line sees of one region. */
  datatype Label =
    | KeySent(addr: Addr, on: bool)
    | KeyReplied(addr: Addr, on: bool, ok: bool)
    | Kept(addr: Addr)
    | Expired(addr: Addr)
    | FailsafeOver(addr: Addr)
    | Quiet

  function LabelOf(s: State, e: Event): Label
    requires Enabled(s, e)
  {
    match e
    case KeyStart(a, on) => KeySent(a, on)
    case KeyDone(i, ok) => KeyReplied(s.wire[i].addr, s.wire[i].on, ok)
    case Keepalive(a) => Kept(a)
    case Fire(t) => Expired(s.timers[t].addr)
    case FailsafeDone(i, _) => FailsafeOver(s.wire[i].addr)
    case Tick(_) => Quiet
  }

  ghost function Labels(ss: seq<State>, es: seq<Event>): (ls: seq<Label>)
    requires IsRun(ss, es)
    ensures |ls| == |es|
  {
    seq(|es|, k requires 0 <= k < |es| => LabelOf(ss[k], es[k]))
  }

  /** A key of `a` was acknowledged and neither an unkey nor a fail-safe attempt ended it since. */
  ghost predicate Acknowledged(ls: seq<Label>, a: Addr) {
    |ls| > 0 &&
    match ls[|ls| - 1]
    case KeyReplied(b, on, ok) => if a == b && ok then on else Acknowledged(ls[..|ls| - 1], a)
    case FailsafeOver(b) => a != b && Acknowledged(ls[..|ls| - 1], a)
    case _ => Acknowledged(ls[..|ls| - 1], a)
  }

  /** `do ptt true` for `a` has been sent and not yet answered. */
  ghost predicate OnWire(ls: seq<Label>, a: Addr) {
    |ls| > 0 &&
    match ls[|ls| - 1]
    case KeySent(b, on) => (a == b && on) || OnWire(ls[..|ls| - 1], a)
    case KeyReplied(b, on, _) => !(a == b && on) && OnWire(ls[..|ls| - 1], a)
    case _ => OnWire(ls[..|ls| - 1], a)
  }

  lemma AccountedStep(s: State, e: Event, a: Addr)
    requires Inv(s) && Enabled(s, e)
    ensures var s' := Step(s, e);
            match LabelOf(s, e)
            case KeySent(b, on) => Key(a, true) in s'.wire <==> (a == b && on) || Key(a, true) in s.wire
            case KeyReplied(b, on, ok) =>
              && (Key(a, true) in s'.wire <==> !(a == b && on) && Key(a, true) in s.wire)
              && (a == b && ok && on ==> a in s'.ptt)
              && (!(a == b && ok) && a in s.ptt.Keys + s.unkeying ==> a in s'.ptt.Keys + s'.unkeying)
            case FailsafeOver(b) =>
              && (Key(a, true) in s'.wire <==> Key(a, true) in s.wire)
              && (a != b && a in s.ptt.Keys + s.unkeying ==> a in s'.ptt.Keys + s'.unkeying)
            case _ =>
              && (Key(a, true) in s'.wire <==> Key(a, true) in s.wire)
              && (a in s.ptt.Keys + s.unkeying ==> a in s'.ptt.Keys + s'.unkeying)
  {
    match e
    case KeyDone(i, _) =>
      RemoveAtIndex(s.wire, i);
    case FailsafeDone(i, _) =>
      RemoveAtIndex(s.wire, i);
    case _ =>
  }

  lemma {:induction false} KeyIsAccounted(ss: seq<State>, es: seq<Event>, n: nat, a: Addr)
    requires IsRun(ss, es) && n <= |es|
    ensures Acknowledged(Labels(ss, es)[..n], a) ==> a in ss[n].ptt.Keys + ss[n].unkeying
    ensures OnWire(Labels(ss, es)[..n], a) <==> Key(a, true) in ss[n].wire
  {
    if n > 0 {
      var ls := Labels(ss, es);
      assert ls[..n][..n - 1] == ls[..n - 1];
      KeyIsAccounted(ss, es, n - 1, a);
      RunKeepsInv(ss, es, n - 1);
      AccountedStep(ss[n - 1], es[n - 1], a);
    }
  }

  /**
    `slot_busy` from the moment a key goes on the wire, through its acknowledgement, until an
    unkey is acknowledged or a fail-safe attempt completes; and never without a cause.
   */
  lemma SlotBusyCoversKeys(ss: seq<State>, es: seq<Event>, n: nat, a: Addr)
    requires IsRun(ss, es) && n <= |es|
    ensures Acknowledged(Labels(ss, es)[..n], a) || OnWire(Labels(ss, es)[..n], a)
            ==> SlotBusy(ss[n], a.slot)
    ensures SlotBusy(ss[n], a.slot) ==>
              || (exists b :: b in ss[n].ptt && b.slot == a.slot)
              || (exists i :: 0 <= i < |ss[n].wire| && ss[n].wire[i].addr.slot == a.slot)
  {
    KeyIsAccounted(ss, es, n, a);
    RunKeepsInv(ss, es, n);
    var s := ss[n];
    if Key(a, true) in s.wire {
      assert a in s.inflight;
    }
    if b :| b in s.ptt.Keys + s.inflight + s.unkeying && b.slot == a.slot {
      if b in s.inflight {
        var i :| 0 <= i < |s.wire| && s.wire[i].Key?;
        assert b == s.wire[i].addr;
      } else if b in s.unkeying {
        var i :| 0 <= i < |s.wire| && s.wire[i] == Failsafe(b);
        assert s.wire[i].addr.slot == a.slot;
      }
    }
  }

  // --- the dead-man fires exactly when the timeout since the last arm elapses -------------

  /** Time of the last arm of `a` by an acknowledged key or a keepalive, if it is still armed. */
  ghost function LastArm(ss: seq<State>, es: seq<Event>, n: nat, a: Addr): (r: seq<real>)
    requires IsRun(ss, es) && n <= |es|
  {
    if n == 0 then [] else
      var prev := LastArm(ss, es, n - 1, a);
      match LabelOf(ss[n - 1], es[n - 1])
      case KeyReplied(b, on, ok) =>
        if a == b && ok then (if on then [ss[n - 1].now] else []) else prev
      case Kept(b) => if a == b && prev != [] then [ss[n - 1].now] else prev
      case Expired(b) => if a == b then [] else prev
      case _ => prev
  }

  /** The instant `a`'s sleeping dead-man task was armed. */
  ghost function ArmTime(s: State, a: Addr): seq<real>
    requires TimersMatch(s)
  {
    if a in s.ptt then [s.timers[s.ptt[a]].deadline - s.timeout] else []
  }

  lemma ArmTimeArm(s: State, a: Addr, b: Addr)
    requires TimersMatch(s) && s.timeout >= 0.0 && TimersMatch(Arm(s, b))
    ensures ArmTime(Arm(s, b), a) == if a == b then [s.now] else ArmTime(s, a)
  {
  }

  lemma ArmTimeDisarm(s: State, a: Addr, b: Addr)
    requires TimersMatch(s) && TimersMatch(Disarm(s, b))
    ensures ArmTime(Disarm(s, b), a) == if a == b then [] else ArmTime(s, a)
  {
  }

  lemma ArmTimeKeyDone(s: State, i: nat, ok: bool, a: Addr)
    requires var e := KeyDone(i, ok); Inv(s) && Enabled(s, e) && TimersMatch(Step(s, e))
    ensures ArmTime(Step(s, KeyDone(i, ok)), a) ==
            if a == s.wire[i].addr && ok then (if s.wire[i].on then [s.now] else []) else ArmTime(s, a)
  {
    if ok && s.wire[i].on {
      ArmKeepsTimers(s, s.wire[i].addr);
      ArmTimeArm(s, a, s.wire[i].addr);
    } else if ok {
      DisarmKeepsTimers(s, s.wire[i].addr);
      ArmTimeDisarm(s, a, s.wire[i].addr);
    }
  }

  lemma ArmTimeStep(s: State, e: Event, a: Addr)
    requires Inv(s) && Enabled(s, e) && TimersMatch(Step(s, e))
    ensures ArmTime(Step(s, e), a) ==
            match LabelOf(s, e)
            case KeyReplied(b, on, ok) =>
              if a == b && ok then (if on then [s.now] else []) else ArmTime(s, a)
            case Kept(b) => if a == b && ArmTime(s, a) != [] then [s.now] else ArmTime(s, a)
            case Expired(b) => if a == b then [] else ArmTime(s, a)
            case _ => ArmTime(s, a)
  {
    match e
    case KeyDone(i, ok) => ArmTimeKeyDone(s, i, ok, a);
    case Keepalive(b) =>
      if b in s.ptt {
        ArmTimeArm(s, a, b);
      }
    case _ =>
  }

  lemma {:induction false} ArmedSinceLastArm(ss: seq<State>, es: seq<Event>, n: nat, a: Addr)
    requires IsRun(ss, es) && n <= |es|
    ensures Inv(ss[n]) && LastArm(ss, es, n, a) == ArmTime(ss[n], a)
  {
    RunKeepsInv(ss, es, n);
    if n > 0 {
      ArmedSinceLastArm(ss, es, n - 1, a);
      ArmTimeStep(ss[n - 1], es[n - 1], a);
    }
  }

  /**
    Without a keepalive or an unkey the clock cannot pass the timeout since the last arm, and the
    fail-safe unkey starts at exactly that instant.
   */
  lemma DeadManFiresOnTime(ss: seq<State>, es: seq<Event>, n: nat, a: Addr)
    requires IsRun(ss, es) && n < |es|
    ensures LastArm(ss, es, n, a) != [] ==>
              ss[n].now <= LastArm(ss, es, n, a)[0] + ss[n].timeout
    ensures LabelOf(ss[n], es[n]) == Expired(a) ==>
              && LastArm(ss, es, n, a) != []
              && ss[n].now == LastArm(ss, es, n, a)[0] + ss[n].timeout
              && a in ss[n + 1].unkeying && Failsafe(a) in ss[n + 1].wire
  {
    ArmedSinceLastArm(ss, es, n, a);
  }

  // --- fail-safe unkeys that overlap ------------------------------------------------------

  /** `_unkeying` names every module whose fail-safe unkey has not landed. */
  ghost predicate Covered(s: State) {
    AllIn(s.wire, s.unkeying)
  }

  ghost predicate AllIn(w: seq<Op>, unkeying: set<Addr>) {
    forall i :: 0 <= i < |w| && w[i].Failsafe? ==> w[i].addr in unkeying
  }

  /** Guard a dead-man could check before it adds its module: no unkey of it is pending already. */
  ghost predicate FiresApart(ss: seq<State>, es: seq<Event>)
    requires IsRun(ss, es)
  {
    forall k :: 0 <= k < |es| && es[k].Fire? ==>
                  ss[k].timers[es[k].task].addr !in ss[k].unkeying
  }

  ghost predicate Distinct(w: seq<Op>) {
    forall i, j :: 0 <= i < j < |w| && w[i].Failsafe? ==> w[i] != w[j]
  }

  lemma RemoveKeepsApart(w: seq<Op>, unkeying: set<Addr>, i: nat)
    requires AllIn(w, unkeying) && Distinct(w) && i < |w|
    ensures Distinct(RemoveAt(w, i))
    ensures AllIn(RemoveAt(w, i), if w[i].Failsafe? then unkeying - {w[i].addr} else unkeying)
  {
    RemoveAtIndex(w, i);
  }

  lemma ApartStep(s: State, e: Event)
    requires Covered(s) && Distinct(s.wire) && Enabled(s, e)
    requires e.Fire? ==> s.timers[e.task].addr !in s.unkeying
    ensures Covered(Step(s, e)) && Distinct(Step(s, e).wire)
  {
    if e.KeyDone? || e.FailsafeDone? {
      RemoveKeepsApart(s.wire, s.unkeying, e.pos);
    }
  }

  lemma {:induction false} ApartStaysCovered(ss: seq<State>, es: seq<Event>, n: nat)
    requires IsRun(ss, es) && n < |ss| && FiresApart(ss, es)
    ensures Covered(ss[n]) && Distinct(ss[n].wire)
  {
    if n > 0 {
      ApartStaysCovered(ss, es, n - 1);
      ApartStep(ss[n - 1], es[n - 1]);
    }
  }

  ghost predicate Twice(s: State, a: Addr) {
    exists i, j :: 0 <= i < j < |s.wire| && s.wire[i] == Failsafe(a) && s.wire[j] == Failsafe(a)
  }

  /** Taking one command off the line leaves at least one of two pending unkeys. */
  lemma RemoveFromTwo(w: seq<Op>, p: nat, i: nat, j: nat)
    requires p < |w| && i < j < |w|
    ensures p != i ==> exists k :: 0 <= k < |w| - 1 && RemoveAt(w, p)[k] == w[i]
    ensures p != j ==> exists k :: 0 <= k < |w| - 1 && RemoveAt(w, p)[k] == w[j]
    ensures p != i && p != j ==>
              exists k, l :: 0 <= k < l < |w| - 1 && RemoveAt(w, p)[k] == w[i] && RemoveAt(w, p)[l] == w[j]
  {
    RemoveAtIndex(w, p);
    var i' := if i < p then i else i - 1;
    var j' := if j < p then j else j - 1;
    assert p != i ==> RemoveAt(w, p)[i'] == w[i];
    assert p != j ==> RemoveAt(w, p)[j'] == w[j];
  }

  lemma TwiceStep(s: State, e: Event, a: Addr)
    requires Twice(s, a) && Enabled(s, e) && Covered(Step(s, e))
    ensures Twice(Step(s, e), a)
  {
    var i, j :| 0 <= i < j < |s.wire| && s.wire[i] == Failsafe(a) && s.wire[j] == Failsafe(a);
    if e.KeyDone? || e.FailsafeDone? {
      RemoveFromTwo(s.wire, e.pos, i, j);
    } else {
      var w := Step(s, e).wire;
      assert w[i] == Failsafe(a) && w[j] == Failsafe(a);
    }
  }

  lemma {:induction false} TwiceLasts(ss: seq<State>, es: seq<Event>, k: nat, n: nat, a: Addr)
    requires IsRun(ss, es) && k <= n < |ss| && Twice(ss[k], a)
    requires forall m :: 0 <= m < |ss| ==> Covered(ss[m])
    ensures Twice(ss[n], a)
  {
    if k < n {
      TwiceLasts(ss, es, k, n - 1, a);
      assert Covered(ss[n]) && ss[n] == Step(ss[n - 1], es[n - 1]);
      TwiceStep(ss[n - 1], es[n - 1], a);
    }
  }

  /**
    `_unkeying` is a set, not a count, so it loses a module whose second fail-safe unkey is still
    pending when the first one lands.  Over every run that ends with an idle line, busy-until-it-
    lands holds throughout if and only if no dead-man fires while its module is being unkeyed.
   */
  lemma UnkeyCoveredIffApart(ss: seq<State>, es: seq<Event>)
    requires IsRun(ss, es) && ss[|es|].wire == []
    ensures (forall k :: 0 <= k < |ss| ==> Covered(ss[k])) <==> FiresApart(ss, es)
  {
    if FiresApart(ss, es) {
      forall k | 0 <= k < |ss|
        ensures Covered(ss[k])
      {
        ApartStaysCovered(ss, es, k);
      }
    }
    if forall k :: 0 <= k < |ss| ==> Covered(ss[k]) {
      forall k | 0 <= k < |es| && es[k].Fire?
        ensures ss[k].timers[es[k].task].addr !in ss[k].unkeying
      {
        var a := ss[k].timers[es[k].task].addr;
        if a in ss[k].unkeying {
          RunKeepsInv(ss, es, k);
          var i :| 0 <= i < |ss[k].wire| && ss[k].wire[i] == Failsafe(a);
          assert ss[k + 1].wire[i] == Failsafe(a) && ss[k + 1].wire[|ss[k].wire|] == Failsafe(a);
          TwiceLasts(ss, es, k + 1, |es|, a);
          assert false;
        }
      }
    }
  }

  ghost predicate Reachable(s: State) {
    exists ss, es :: IsRun(ss, es) && ss[|es|] == s
  }

  predicate Leads(s: State, e: Event, s': State) {
    Enabled(s, e) && Step(s, e) == s'
  }

  lemma Then(s: State, e: Event, s': State)
    requires Reachable(s) && Leads(s, e, s')
    ensures Reachable(s')
  {
    var ss, es :| IsRun(ss, es) && ss[|es|] == s;
    assert IsRun(ss + [s'], es + [e]) && (ss + [s'])[|es| + 1] == s';
  }

  /** At time `now`: the armed task of `a` if any, and whether it is being keyed or unkeyed. */
  function With(a: Addr, now: real, task: seq<nat>, next: nat, keying: bool, unkeying: bool, wire: seq<Op>): State {
    State(1.5, now, if task == [] then map[] else map[a := task[0]],
          if task == [] then map[] else map[task[0] := Timer(a, 1.5 + 1.5 * task[0] as real)],
          next, if keying then {a} else {}, if unkeying then {a} else {}, wire)
  }

  lemma LostKey(a: Addr)
    ensures Leads(Init(1.5), KeyStart(a, true), With(a, 0.0, [], 0, true, false, [Key(a, true)]))
  {
  }

  lemma LostArm(a: Addr)
    ensures Leads(With(a, 0.0, [], 0, true, false, [Key(a, true)]), KeyDone(0, true),
                  With(a, 0.0, [0], 1, false, false, []))
  {
  }

  lemma LostSecondKey(a: Addr)
    ensures Leads(With(a, 0.0, [0], 1, false, false, []), KeyStart(a, true),
                  With(a, 0.0, [0], 1, true, false, [Key(a, true)]))
  {
  }

  lemma LostWait(a: Addr)
    ensures Leads(With(a, 0.0, [0], 1, true, false, [Key(a, true)]), Tick(1.5),
                  With(a, 1.5, [0], 1, true, false, [Key(a, true)]))
  {
  }

  lemma LostFire(a: Addr)
    ensures Leads(With(a, 1.5, [0], 1, true, false, [Key(a, true)]), Fire(0),
                  With(a, 1.5, [], 1, true, true, [Key(a, true), Failsafe(a)]))
  {
  }

  lemma LostRearm(a: Addr)
    ensures Leads(With(a, 1.5, [], 1, true, true, [Key(a, true), Failsafe(a)]), KeyDone(0, true),
                  With(a, 1.5, [1], 2, false, true, [Failsafe(a)]))
  {
  }

  lemma LostWaitAgain(a: Addr)
    ensures Leads(With(a, 1.5, [1], 2, false, true, [Failsafe(a)]), Tick(1.5),
                  With(a, 3.0, [1], 2, false, true, [Failsafe(a)]))
  {
  }

  lemma LostFireAgain(a: Addr)
    ensures Leads(With(a, 3.0, [1], 2, false, true, [Failsafe(a)]), Fire(1),
                  With(a, 3.0, [], 2, false, true, [Failsafe(a), Failsafe(a)]))
  {
  }

  lemma LostLand(a: Addr)
    ensures Leads(With(a, 3.0, [], 2, false, true, [Failsafe(a), Failsafe(a)]), FailsafeDone(0, true),
                  With(a, 3.0, [], 2, false, false, [Failsafe(a)]))
  {
  }

  lemma ReachFire(a: Addr)
    ensures Reachable(With(a, 1.5, [], 1, true, true, [Key(a, true), Failsafe(a)]))
  {
    assert IsRun([Init(1.5)], []);
    LostKey(a);
    Then(Init(1.5), KeyStart(a, true), With(a, 0.0, [], 0, true, false, [Key(a, true)]));
    LostArm(a);
    Then(With(a, 0.0, [], 0, true, false, [Key(a, true)]), KeyDone(0, true), With(a, 0.0, [0], 1, false, false, []));
    LostSecondKey(a);
    Then(With(a, 0.0, [0], 1, false, false, []), KeyStart(a, true), With(a, 0.0, [0], 1, true, false, [Key(a, true)]));
    LostWait(a);
    Then(With(a, 0.0, [0], 1, true, false, [Key(a, true)]), Tick(1.5), With(a, 1.5, [0], 1, true, false, [Key(a, true)]));
    LostFire(a);
    Then(With(a, 1.5, [0], 1, true, false, [Key(a, true)]), Fire(0),
         With(a, 1.5, [], 1, true, true, [Key(a, true), Failsafe(a)]));
  }

  lemma ReachLand(a: Addr)
    ensures Reachable(With(a, 3.0, [], 2, false, false, [Failsafe(a)]))
  {
    ReachFire(a);
    LostRearm(a);
    Then(With(a, 1.5, [], 1, true, true, [Key(a, true), Failsafe(a)]), KeyDone(0, true),
         With(a, 1.5, [1], 2, false, true, [Failsafe(a)]));
    LostWaitAgain(a);
    Then(With(a, 1.5, [1], 2, false, true, [Failsafe(a)]), Tick(1.5), With(a, 3.0, [1], 2, false, true, [Failsafe(a)]));
    LostFireAgain(a);
    Then(With(a, 3.0, [1], 2, false, true, [Failsafe(a)]), Fire(1),
         With(a, 3.0, [], 2, false, true, [Failsafe(a), Failsafe(a)]));
    LostLand(a);
    Then(With(a, 3.0, [], 2, false, true, [Failsafe(a), Failsafe(a)]), FailsafeDone(0, true),
         With(a, 3.0, [], 2, false, false, [Failsafe(a)]));
  }

  /**
    The failing family is reachable with the commands in line order: a module is keyed, its
    dead-man fires while a second key of it holds the line, that key is acknowledged and its own
    dead-man fires before the first unkey lands.
   */
  lemma UnkeyLostExample(a: Addr) returns (s: State)
    ensures Reachable(s) && Failsafe(a) in s.wire && !SlotBusy(s, a.slot) && !PttActive(s)
  {
    ReachLand(a);
    s := With(a, 3.0, [], 2, false, false, [Failsafe(a)]);
  }

  // --- the object ------------------------------------------------------------------------

  /** The keys and dead-man tasks of every module but `a` are the same. */
  ghost predicate SameOthers(s: State, s': State, a: Addr)
    requires TimersMatch(s)
  {
    forall b :: b != a ==>
      && (b in s'.ptt <==> b in s.ptt)
      && (b in s.ptt ==> s'.ptt[b] == s.ptt[b] && s.ptt[b] in s'.timers && s'.timers[s.ptt[b]] == s.timers[s.ptt[b]])
  }

  /** The broker's PTT members.  `View` is the state the lemmas above speak about. */
  class Broker {
    const timeout: real
    var now: real
    var ptt: map<Addr, nat>
    var timers: map<nat, Timer>
    var nextTask: nat
    var inflight: set<Addr>
    var unkeying: set<Addr>
    var wire: seq<Op>

    ghost function View(): State
      reads this
    {
      State(timeout, now, ptt, timers, nextTask, inflight, unkeying, wire)
    }

    constructor (timeout: real)
      requires timeout >= 0.0
      ensures View() == Init(timeout) && Inv(View())
    {
      this.timeout := timeout;
      now, ptt, timers, nextTask := 0.0, map[], map[], 0;
      inflight, unkeying, wire := {}, {}, [];
    }

    /** No sleeping dead-man of `a` is left, and no other module's is touched. */
    method DisarmDeadMan(a: Addr)
      modifies this
      ensures View() == Disarm(old(View()), a)
      ensures TimersMatch(old(View())) ==>
                && TimersMatch(View()) && a !in ptt && (forall t :: t in timers ==> timers[t].addr != a)
                && SameOthers(old(View()), View(), a)
    {
      if TimersMatch(View()) {
        DisarmKeepsTimers(View(), a);
      }
      if a in ptt {
        timers := timers - {ptt[a]};
        ptt := ptt - {a};
      }
    }

    /** Exactly one dead-man of `a` sleeps, due a full timeout from now, and no other module's is touched. */
    method ArmDeadMan(a: Addr)
      modifies this
      ensures View() == Arm(old(View()), a)
      ensures TimersMatch(old(View())) && timeout >= 0.0 ==>
                && TimersMatch(View()) && a in ptt && timers[ptt[a]] == Timer(a, now + timeout)
                && (forall t :: t in timers && timers[t].addr == a ==> t == ptt[a])
                && SameOthers(old(View()), View(), a)
    {
      if TimersMatch(View()) && timeout >= 0.0 {
        ArmKeepsTimers(View(), a);
      }
      DisarmDeadMan(a);
      timers := timers[nextTask := Timer(a, now + timeout)];
      ptt := ptt[a := nextTask];
      nextTask := nextTask + 1;
    }

    method BeginPtt(a: Addr, on: bool)
      requires Inv(View()) && Enabled(View(), KeyStart(a, on))
      modifies this
      ensures Inv(View()) && View() == Step(old(View()), KeyStart(a, on))
    {
      InvStep(View(), KeyStart(a, on));
      inflight := inflight + {a};
      wire := wire + [Key(a, on)];
    }

    /** Arms or disarms before the command leaves the in-flight window. */
    method EndPtt(i: nat, ok: bool)
      requires Inv(View()) && Enabled(View(), KeyDone(i, ok))
      modifies this
      ensures Inv(View()) && View() == Step(old(View()), KeyDone(i, ok))
    {
      InvStep(View(), KeyDone(i, ok));
      var op := wire[i];
      if ok {
        if op.on {
          ArmDeadMan(op.addr);
        } else {
          DisarmDeadMan(op.addr);
        }
      }
      inflight := inflight - {op.addr};
      wire := RemoveAt(wire, i);
    }

    method HandleKeepalive(a: Addr)
      requires Inv(View()) && Enabled(View(), Keepalive(a))
      modifies this
      ensures Inv(View()) && View() == Step(old(View()), Keepalive(a))
    {
      InvStep(View(), Keepalive(a));
      if a in ptt {
        ArmDeadMan(a);
      }
    }

    method DeadMan(t: nat)
      requires Inv(View()) && Enabled(View(), Fire(t))
      modifies this
      ensures Inv(View()) && View() == Step(old(View()), Fire(t))
    {
      InvStep(View(), Fire(t));
      var a := timers[t].addr;
      timers := timers - {t};
      ptt := ptt - {a};
      unkeying := unkeying + {a};
      wire := wire + [Failsafe(a)];
    }

    method EndUnkey(i: nat, ok: bool)
      requires Inv(View()) && Enabled(View(), FailsafeDone(i, ok))
      modifies this
      ensures Inv(View()) && View() == Step(old(View()), FailsafeDone(i, ok))
    {
      InvStep(View(), FailsafeDone(i, ok));
      unkeying := unkeying - {wire[i].addr};
      wire := RemoveAt(wire, i);
    }
  }
}

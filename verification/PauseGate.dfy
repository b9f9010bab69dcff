/**
  The firmware pause of one slot: the flasher thread's pause, barrier and idle query against the
  broker calls queued on the slot lock, their executor threads and the process-wide device lock.

  Loop-side regions run from await to await; thread-side steps are single reads and lock moves,
  so a pause can fall between any two of them.
 */
module PauseGate {
  import opened Options

  /** What a call of `Broker._execute` is for, with the module it addresses. */
  datatype Purpose = KeyOn(unit: string) | KeyOff(unit: string) | Unkey(unit: string) | Other

  datatype Stage =
    | Queued          // waiting for the slot lock
    | Submitted       // in its executor thread, waiting for the device lock
    | Locked          // device lock held, `abort_if` not yet asked
    | Cleared         // `abort_if` said no
    | Open            // device open
    | Replied(ok: bool)

  datatype Call = Call(purpose: Purpose, stage: Stage)

  /** Where the flasher is inside `_pause_when_idle`, or past it. */
  datatype Flasher = Away | Pausing | InBarrier | Asking | Answered(busy: bool) | Owns

  datatype Holder = ByCall(id: nat) | ByFlasher | ByProbe(probe: nat)

  /** A discovery or re-discovery probe checks the pause once, before it takes the device lock. */
  datatype Probe = Checked | Probing

  datatype Gate = Gate(
    paused: bool,
    flasher: Flasher,
    device: Option<Holder>,   // control_device_lock
    slotLock: Option<nat>,    // the broker's per-slot lock
    calls: map<nat, Call>,
    nextId: nat,
    ptt: set<string>,
    inflight: set<string>,
    unkeying: set<string>,
    probes: map<nat, Probe>   // from any number of threads
  )

  datatype Event =
    | Begin(purpose: Purpose)         // loop: a command or poll enters `_execute`
    | DeadMan(unit: string)           // loop: a dead-man fires
    | Grant(id: nat)                  // loop: the slot lock goes to a queued call
    | TakeDevice(id: nat)
    | DeviceBusy(id: nat)             // the device lock timed out
    | AskAbort(id: nat)
    | OpenDevice(id: nat, ok: bool)
    | CloseDevice(id: nat, ok: bool)
    | Return(id: nat)                 // loop: the result is back
    | Pause
    | EnterBarrier
    | LeaveBarrier
    | BarrierTimeout
    | Query                           // loop: `slot_busy` is evaluated
    | QueryTimeout
    | Decide(audio: bool)
    | Resume
    | ProbeCheck(probe: nat)
    | ProbeTake(probe: nat)
    | ProbeBusy(probe: nat)           // the device lock timed out
    | ProbeClose(probe: nat)

  predicate Failsafe(p: Purpose) {
    p.Unkey?
  }

  predicate IsKey(p: Purpose) {
    p.KeyOn? || p.KeyOff?
  }

  predicate Busy(g: Gate) {
    g.ptt != {} || g.inflight != {} || g.unkeying != {}
  }

  function Init(): Gate {
    Gate(false, Away, None, None, map[], 0, {}, {}, {}, map[])
  }

  // --- the steps ------------------------------------------------------------------------------

  function Add(g: Gate, p: Purpose): Gate {
    g.(calls := g.calls[g.nextId := Call(p, Queued)], nextId := g.nextId + 1)
  }

  function At(g: Gate, id: nat, stage: Stage): Gate
    requires id in g.calls
  {
    g.(calls := g.calls[id := g.calls[id].(stage := stage)])
  }

  /** The first pause check, before anything is queued.  A refused key leaves no trace. */
  function BeginCall(g: Gate, p: Purpose): Gate {
    if g.paused && !Failsafe(p) then g
    else if IsKey(p) then Add(g, p).(inflight := g.inflight + {p.unit})
    else Add(g, p)
  }

  /** What the loop does with a result: arm or disarm first, then leave the window. */
  function Settle(g: Gate, id: nat, ok: bool): Gate
    requires id in g.calls
  {
    var p := g.calls[id].purpose;
    var ptt := if !ok then g.ptt
               else if p.KeyOn? then g.ptt + {p.unit}
               else if p.KeyOff? then g.ptt - {p.unit}
               else g.ptt;
    g.(calls := g.calls - {id},
       ptt := ptt,
       inflight := if IsKey(p) then g.inflight - {p.unit} else g.inflight,
       unkeying := if p.Unkey? then g.unkeying - {p.unit} else g.unkeying)
  }

  predicate PastCheck(g: Gate, i: nat) {
    i in g.probes && g.probes[i].Checked?
  }

  predicate OnDevice(g: Gate, i: nat) {
    i in g.probes && g.probes[i].Probing?
  }

  predicate InStage(g: Gate, id: nat, stage: Stage) {
    id in g.calls && g.calls[id].stage == stage
  }

  predicate Enabled(g: Gate, e: Event) {
    match e
    // One message at a time: the next key waits for the result of the last.
    case Begin(p) => !Failsafe(p) && (IsKey(p) ==> forall id :: id in g.calls ==> !IsKey(g.calls[id].purpose))
    case DeadMan(u) => u in g.ptt
    case Grant(id) => InStage(g, id, Queued) && g.slotLock.None?
    case TakeDevice(id) => InStage(g, id, Submitted) && g.device.None?
    case DeviceBusy(id) => InStage(g, id, Submitted)
    case AskAbort(id) => InStage(g, id, Locked)
    case OpenDevice(id, _) => InStage(g, id, Cleared)
    case CloseDevice(id, _) => InStage(g, id, Open)
    case Return(id) => id in g.calls && g.calls[id].stage.Replied?
    case Pause => g.flasher.Away?
    case EnterBarrier => g.flasher.Pausing? && g.device.None?
    case LeaveBarrier => g.flasher.InBarrier?
    case BarrierTimeout => g.flasher.Pausing?
    case Query => g.flasher.Asking?
    case QueryTimeout => g.flasher.Asking?
    case Decide(_) => g.flasher.Answered?
    case Resume => g.flasher.Owns?
    case ProbeCheck(i) => i !in g.probes
    case ProbeTake(i) => PastCheck(g, i) && g.device.None?
    case ProbeBusy(i) => PastCheck(g, i)
    case ProbeClose(i) => OnDevice(g, i)
  }

  function Step(g: Gate, e: Event): Gate
    requires Enabled(g, e)
  {
    match e
    case Begin(p) => BeginCall(g, p)
    case DeadMan(u) => Add(g, Unkey(u)).(ptt := g.ptt - {u}, unkeying := g.unkeying + {u})
    case Grant(id) =>
      if g.paused && !Failsafe(g.calls[id].purpose) then Settle(g, id, false)
      else At(g, id, Submitted).(slotLock := Some(id))
    case TakeDevice(id) => At(g, id, Locked).(device := Some(ByCall(id)))
    case DeviceBusy(id) => At(g, id, Replied(false))
    case AskAbort(id) =>
      if g.paused && !Failsafe(g.calls[id].purpose) then At(g, id, Replied(false)).(device := None)
      else At(g, id, Cleared)
    case OpenDevice(id, ok) =>
      if ok then At(g, id, Open) else At(g, id, Replied(false)).(device := None)
    case CloseDevice(id, ok) => At(g, id, Replied(ok)).(device := None)
    case Return(id) => Settle(g, id, g.calls[id].stage.ok).(slotLock := None)
    case Pause => g.(paused := true, flasher := Pausing)
    case EnterBarrier => g.(flasher := InBarrier, device := Some(ByFlasher))
    case LeaveBarrier => g.(flasher := Asking, device := None)
    case BarrierTimeout => g.(paused := false, flasher := Away)
    case Query => g.(flasher := Answered(Busy(g)))
    case QueryTimeout => g.(flasher := Answered(true))
    case Decide(audio) =>
      if g.flasher.busy || audio then g.(paused := false, flasher := Away)
      else g.(flasher := Owns)
    case Resume => g.(paused := false, flasher := Away)
    case ProbeCheck(i) => if g.paused then g else g.(probes := g.probes[i := Checked])
    case ProbeTake(i) => g.(probes := g.probes[i := Probing], device := Some(ByProbe(i)))
    case ProbeBusy(i) => g.(probes := g.probes - {i})
    case ProbeClose(i) => g.(probes := g.probes - {i}, device := None)
  }

  ghost predicate StepAt(gs: seq<Gate>, es: seq<Event>, k: nat)
    requires |gs| == |es| + 1 && k < |es|
  {
    Enabled(gs[k], es[k]) && gs[k + 1] == Step(gs[k], es[k])
  }

  ghost predicate IsRun(gs: seq<Gate>, es: seq<Event>) {
    && |gs| == |es| + 1 && gs[0] == Init()
    && forall k :: 0 <= k < |es| ==> StepAt(gs, es, k)
  }

  // --- the invariant --------------------------------------------------------------------------

  predicate HasDevice(st: Stage) {
    st.Locked? || st.Cleared? || st.Open?
  }

  ghost predicate LocksInv(g: Gate) {
    && (forall id :: id in g.calls ==>
                       (HasDevice(g.calls[id].stage) <==> g.device == Some(ByCall(id))))
    && (forall id :: id in g.calls ==> (!g.calls[id].stage.Queued? <==> g.slotLock == Some(id)))
    && (forall id :: id in g.calls ==> id < g.nextId)
    && (g.device.Some? && g.device.value.ByCall? ==> g.device.value.id in g.calls)
    && (g.slotLock.Some? ==> g.slotLock.value in g.calls)
    && (g.flasher.InBarrier? <==> g.device == Some(ByFlasher))
    && (forall i: nat :: OnDevice(g, i) <==> g.device == Some(ByProbe(i)))
  }

  /** At most one PTT command is under way and `_ptt_inflight` names it. */
  ghost predicate KeysInv(g: Gate) {
    && (forall id :: id in g.calls && IsKey(g.calls[id].purpose) ==> g.inflight == {g.calls[id].purpose.unit})
    && (forall i, j :: i in g.calls && j in g.calls && IsKey(g.calls[i].purpose) && IsKey(g.calls[j].purpose)
                       ==> i == j)
    && (g.inflight != {} ==> exists id :: id in g.calls && IsKey(g.calls[id].purpose))
  }

  predicate PastBarrier(f: Flasher) {
    f.InBarrier? || f.Asking? || f.Answered? || f.Owns?
  }

  ghost predicate PauseInv(g: Gate) {
    && (g.paused <==> !g.flasher.Away?)
    && (PastBarrier(g.flasher) ==> OnlyFailsafeOpens(g))
    && (g.flasher.Owns? || g.flasher == Answered(false) ==> NoKeyUnderWay(g))
  }

  /** Past the barrier, a call that was cleared to open the device is a fail-safe unkey. */
  ghost predicate OnlyFailsafeOpens(g: Gate) {
    forall id :: id in g.calls && (g.calls[id].stage.Cleared? || g.calls[id].stage.Open?) ==>
                   Failsafe(g.calls[id].purpose)
  }

  ghost predicate NoKeyUnderWay(g: Gate) {
    g.ptt == {} && g.unkeying == {} && forall id :: id in g.calls ==> !IsKey(g.calls[id].purpose)
  }

  ghost predicate Inv(g: Gate) {
    LocksInv(g) && KeysInv(g) && PauseInv(g)
  }

  lemma SettleKeepsKeys(g: Gate, id: nat, ok: bool)
    requires KeysInv(g) && id in g.calls
    ensures KeysInv(Settle(g, id, ok))
  {
    var g' := Settle(g, id, ok);
    if g'.inflight != {} && !IsKey(g.calls[id].purpose) {
      var k :| k in g.calls && IsKey(g.calls[k].purpose);
      assert k in g'.calls;
    }
  }

  lemma StageKeepsKeys(g: Gate, id: nat, stage: Stage)
    requires KeysInv(g) && id in g.calls
    ensures KeysInv(At(g, id, stage))
  {
    var g' := At(g, id, stage);
    if g.inflight != {} {
      var k :| k in g.calls && IsKey(g.calls[k].purpose);
      assert k in g'.calls && IsKey(g'.calls[k].purpose);
    }
  }

  lemma AddKeepsKeys(g: Gate, p: Purpose)
    requires Inv(g) && !IsKey(p)
    ensures KeysInv(Add(g, p))
  {
    var g' := Add(g, p);
    if g.inflight != {} {
      var k :| k in g.calls && IsKey(g.calls[k].purpose);
      assert k in g'.calls && g'.calls[k] == g.calls[k];
    }
  }

  lemma KeysStep(g: Gate, e: Event)
    requires Inv(g) && Enabled(g, e)
    ensures KeysInv(Step(g, e))
  {
    if OnThread(e) {
      ThreadKeepsKeys(g, e);
    } else if OnLoop(e) {
      LoopKeepsKeys(g, e);
    } else {
      assert Step(g, e).calls == g.calls && Step(g, e).inflight == g.inflight;
    }
  }

  lemma LoopKeepsKeys(g: Gate, e: Event)
    requires Inv(g) && Enabled(g, e) && OnLoop(e)
    ensures KeysInv(Step(g, e))
  {
    match e
    case Begin(p) =>
      if !IsKey(p) {
        AddKeepsKeys(g, p);
      } else if !g.paused {
        assert g.nextId in Step(g, e).calls;
      }
    case DeadMan(u) => AddKeepsKeys(g, Unkey(u));
    case Grant(id) =>
      SettleKeepsKeys(g, id, false);
      StageKeepsKeys(g, id, Submitted);
    case Return(id) => SettleKeepsKeys(g, id, g.calls[id].stage.ok);
  }

  lemma ThreadKeepsKeys(g: Gate, e: Event)
    requires KeysInv(g) && Enabled(g, e) && OnThread(e)
    ensures KeysInv(Step(g, e))
  {
    match e
    case TakeDevice(id) => StageKeepsKeys(g, id, Locked);
    case DeviceBusy(id) => StageKeepsKeys(g, id, Replied(false));
    case AskAbort(id) =>
      StageKeepsKeys(g, id, Replied(false));
      StageKeepsKeys(g, id, Cleared);
    case OpenDevice(id, _) =>
      StageKeepsKeys(g, id, Open);
      StageKeepsKeys(g, id, Replied(false));
    case CloseDevice(id, ok) => StageKeepsKeys(g, id, Replied(ok));
  }

  /** An executor thread moving its own call along. */
  predicate OnThread(e: Event) {
    e.TakeDevice? || e.DeviceBusy? || e.AskAbort? || e.OpenDevice? || e.CloseDevice?
  }

  /** The loop starting, granting or ending a call. */
  predicate OnLoop(e: Event) {
    e.Begin? || e.DeadMan? || e.Grant? || e.Return?
  }

  lemma ThreadKeepsLocks(g: Gate, e: Event)
    requires LocksInv(g) && Enabled(g, e) && OnThread(e)
    ensures LocksInv(Step(g, e))
  {
  }

  lemma AddKeepsLocks(g: Gate, p: Purpose)
    requires LocksInv(g)
    ensures LocksInv(Add(g, p))
  {
  }

  lemma LoopKeepsLocks(g: Gate, e: Event)
    requires LocksInv(g) && Enabled(g, e) && OnLoop(e)
    ensures LocksInv(Step(g, e))
  {
    match e
    case Begin(p) => AddKeepsLocks(g, p);
    case DeadMan(u) => AddKeepsLocks(g, Unkey(u));
    case _ =>
  }

  lemma LocksStep(g: Gate, e: Event)
    requires LocksInv(g) && Enabled(g, e)
    ensures LocksInv(Step(g, e))
  {
    if OnThread(e) {
      ThreadKeepsLocks(g, e);
    } else if OnLoop(e) {
      LoopKeepsLocks(g, e);
    }
  }

  lemma ThreadKeepsPause(g: Gate, e: Event)
    requires Inv(g) && Enabled(g, e) && OnThread(e)
    ensures PauseInv(Step(g, e))
  {
  }

  lemma LoopKeepsPause(g: Gate, e: Event)
    requires Inv(g) && Enabled(g, e) && OnLoop(e)
    ensures PauseInv(Step(g, e))
  {
  }

  lemma PauseStep(g: Gate, e: Event)
    requires Inv(g) && Enabled(g, e)
    ensures PauseInv(Step(g, e))
  {
    if OnThread(e) {
      ThreadKeepsPause(g, e);
    } else if OnLoop(e) {
      LoopKeepsPause(g, e);
    }
  }

  lemma {:induction false} RunKeepsInv(gs: seq<Gate>, es: seq<Event>, n: nat)
    requires IsRun(gs, es) && n < |gs|
    ensures Inv(gs[n])
  {
    if n > 0 {
      RunKeepsInv(gs, es, n - 1);
      assert StepAt(gs, es, n - 1);
      LocksStep(gs[n - 1], es[n - 1]);
      KeysStep(gs[n - 1], es[n - 1]);
      PauseStep(gs[n - 1], es[n - 1]);
    }
  }

  // --- keys, told from the events --------------------------------------------------------------------

  /** What comes back in this event, if it is the return of a call. */
  ghost function Returned(g: Gate, e: Event): Option<Call> {
    if e.Return? && e.id in g.calls then Some(g.calls[e.id]) else None
  }

  ghost predicate Acks(c: Option<Call>, p: Purpose) {
    c == Some(Call(p, Replied(true)))
  }

  ghost predicate UnkeyOver(c: Option<Call>, u: string) {
    c.Some? && c.value.purpose == Unkey(u)
  }

  /** A key of `u` was acknowledged, and neither an unkey of it since nor any fail-safe unkey has come back. */
  ghost predicate Live(gs: seq<Gate>, es: seq<Event>, n: nat, u: string)
    requires |gs| == |es| + 1 && n <= |es|
  {
    n > 0 &&
    var c := Returned(gs[n - 1], es[n - 1]);
    Acks(c, KeyOn(u)) || (Live(gs, es, n - 1, u) && !Acks(c, KeyOff(u)) && !UnkeyOver(c, u))
  }

  /** A key of `u` was acknowledged, and neither an unkey of it since nor its dead-man fired. */
  ghost predicate Armed(gs: seq<Gate>, es: seq<Event>, n: nat, u: string)
    requires |gs| == |es| + 1 && n <= |es|
  {
    n > 0 &&
    var c := Returned(gs[n - 1], es[n - 1]);
    Acks(c, KeyOn(u)) || (Armed(gs, es, n - 1, u) && !Acks(c, KeyOff(u)) && es[n - 1] != DeadMan(u))
  }

  /** A dead-man of `u` fired, and no fail-safe unkey of it has come back since. */
  ghost predicate Unkeying(gs: seq<Gate>, es: seq<Event>, n: nat, u: string)
    requires |gs| == |es| + 1 && n <= |es|
  {
    n > 0 && (es[n - 1] == DeadMan(u) || (Unkeying(gs, es, n - 1, u) && !UnkeyOver(Returned(gs[n - 1], es[n - 1]), u)))
  }

  lemma NotedStep(g: Gate, e: Event, u: string)
    requires Enabled(g, e) && KeysInv(g)
    ensures var g', c := Step(g, e), Returned(g, e);
            && (u in g'.ptt <==> Acks(c, KeyOn(u)) || (u in g.ptt && !Acks(c, KeyOff(u)) && e != DeadMan(u)))
            && (u in g'.unkeying <==> e == DeadMan(u) || (u in g.unkeying && !UnkeyOver(c, u)))
  {
  }

  /** The broker's two sets say exactly what the events say, and a live key is in one of them. */
  lemma {:induction false} SetsTellEvents(gs: seq<Gate>, es: seq<Event>, n: nat, u: string)
    requires IsRun(gs, es) && n <= |es|
    ensures u in gs[n].ptt <==> Armed(gs, es, n, u)
    ensures u in gs[n].unkeying <==> Unkeying(gs, es, n, u)
    ensures Live(gs, es, n, u) ==> u in gs[n].ptt || u in gs[n].unkeying
  {
    if n > 0 {
      SetsTellEvents(gs, es, n - 1, u);
      RunKeepsInv(gs, es, n - 1);
      assert StepAt(gs, es, n - 1);
      NotedStep(gs[n - 1], es[n - 1], u);
    }
  }

  /** A key or unkey command of this slot is under way. */
  ghost predicate KeyUnderWay(g: Gate) {
    exists id :: id in g.calls && IsKey(g.calls[id].purpose)
  }

  /**
    The flasher's query answers busy if and only if some unit is armed or being unkeyed or a key command
    is under way; in particular whenever a key is live.
   */
  lemma QueryTellsKeys(gs: seq<Gate>, es: seq<Event>, n: nat)
    requires IsRun(gs, es) && n < |es| && es[n].Query?
    ensures gs[n + 1].flasher.Answered?
    ensures gs[n + 1].flasher.busy <==>
            (exists u :: Armed(gs, es, n, u) || Unkeying(gs, es, n, u)) || KeyUnderWay(gs[n])
    ensures (exists u :: Live(gs, es, n, u)) ==> gs[n + 1].flasher.busy
  {
    var g := gs[n];
    RunKeepsInv(gs, es, n);
    assert StepAt(gs, es, n);
    assert (forall u :: u !in g.ptt) ==> g.ptt == {};
    assert (forall u :: u !in g.unkeying) ==> g.unkeying == {};
    if u :| u in g.ptt {
      SetsTellEvents(gs, es, n, u);
    }
    if u :| u in g.unkeying {
      SetsTellEvents(gs, es, n, u);
    }
    if u :| Armed(gs, es, n, u) || Unkeying(gs, es, n, u) {
      SetsTellEvents(gs, es, n, u);
    }
    if u :| Live(gs, es, n, u) {
      SetsTellEvents(gs, es, n, u);
    }
    if id :| id in g.calls && IsKey(g.calls[id].purpose) {
      assert g.calls[id].purpose.unit in g.inflight;
    }
  }

  /** The device answered this call well at some point before `n`. */
  ghost predicate Closed(es: seq<Event>, n: nat, id: nat) {
    exists j :: 0 <= j < n && j < |es| && es[j] == CloseDevice(id, true)
  }

  lemma ClosedNext(es: seq<Event>, n: nat, id: nat)
    requires n < |es|
    ensures Closed(es, n + 1, id) <==> Closed(es, n, id) || es[n] == CloseDevice(id, true)
  {
    if es[n] == CloseDevice(id, true) {
      assert Closed(es, n + 1, id);
    }
  }

  lemma RepliedStep(g: Gate, e: Event, id: nat, closed: bool)
    requires LocksInv(g) && Enabled(g, e) && (closed ==> id < g.nextId)
    requires id in g.calls ==> (g.calls[id].stage == Replied(true) <==> closed)
    ensures var g', closed' := Step(g, e), closed || e == CloseDevice(id, true);
            && (closed' ==> id < g'.nextId)
            && (id in g'.calls ==> (g'.calls[id].stage == Replied(true) <==> closed'))
  {
    if OnThread(e) {
      RepliedOnThread(g, e, id, closed);
    }
  }

  lemma RepliedOnThread(g: Gate, e: Event, id: nat, closed: bool)
    requires LocksInv(g) && Enabled(g, e) && OnThread(e) && (closed ==> id < g.nextId)
    requires id in g.calls ==> (g.calls[id].stage == Replied(true) <==> closed)
    ensures var g', closed' := Step(g, e), closed || e == CloseDevice(id, true);
            && (closed' ==> id < g'.nextId)
            && (id in g'.calls ==> (g'.calls[id].stage == Replied(true) <==> closed'))
  {
  }

  /** A call comes back as done if and only if the device answered it so. */
  lemma {:induction false} DoneIffAnswered(gs: seq<Gate>, es: seq<Event>, n: nat, id: nat)
    requires IsRun(gs, es) && n <= |es|
    ensures Closed(es, n, id) ==> id < gs[n].nextId
    ensures id in gs[n].calls ==> (gs[n].calls[id].stage == Replied(true) <==> Closed(es, n, id))
  {
    if n > 0 {
      DoneIffAnswered(gs, es, n - 1, id);
      RunKeepsInv(gs, es, n - 1);
      assert StepAt(gs, es, n - 1);
      ClosedNext(es, n - 1, id);
      RepliedStep(gs[n - 1], es[n - 1], id, Closed(es, n - 1, id));
    }
  }

  /**
    A call that was cleared is on the device exactly if that opens.  A barrier that times out ends the pause
    as a resume does, and a query that times out counts as busy.
   */
  lemma OutcomesAreHeeded(gs: seq<Gate>, es: seq<Event>, n: nat)
    requires IsRun(gs, es) && n < |es|
    ensures es[n].OpenDevice? ==>
              && InStage(gs[n + 1], es[n].id, if es[n].ok then Open else Replied(false))
              && (es[n].ok <==> gs[n + 1].device.Some?)
    ensures es[n].BarrierTimeout? || es[n].Resume? ==> !gs[n + 1].paused && gs[n + 1].flasher.Away?
    ensures es[n].QueryTimeout? ==> gs[n + 1].flasher == Answered(true)
    ensures es[n].Pause? ==> gs[n + 1].paused
  {
    RunKeepsInv(gs, es, n);
    assert StepAt(gs, es, n);
  }

  /** The flasher goes on to own the slot exactly if the answer was idle and no audio runs; else the pause ends. */
  lemma OwnsIff(gs: seq<Gate>, es: seq<Event>, n: nat)
    requires IsRun(gs, es) && n < |es| && es[n].Decide?
    ensures gs[n + 1].flasher.Owns? <==> gs[n].flasher == Answered(false) && !es[n].audio
    ensures gs[n + 1].paused <==> gs[n + 1].flasher.Owns?
  {
    RunKeepsInv(gs, es, n + 1);
    assert StepAt(gs, es, n);
  }

  /** At each of its three checks an ordinary call passes if and only if the slot is not paused. */
  lemma OrdinaryPassesIff(gs: seq<Gate>, es: seq<Event>, n: nat, id: nat)
    requires IsRun(gs, es) && n < |es|
    ensures es[n].Begin? ==> (gs[n].nextId in gs[n + 1].calls <==> !gs[n].paused)
    ensures id in gs[n].calls && !Failsafe(gs[n].calls[id].purpose) && es[n] == Grant(id) ==>
              if gs[n].paused then id !in gs[n + 1].calls else InStage(gs[n + 1], id, Submitted)
    ensures id in gs[n].calls && !Failsafe(gs[n].calls[id].purpose) && es[n] == AskAbort(id) ==>
              if gs[n].paused then InStage(gs[n + 1], id, Replied(false)) && gs[n + 1].device.None?
              else InStage(gs[n + 1], id, Cleared)
  {
    RunKeepsInv(gs, es, n);
    assert StepAt(gs, es, n);
  }

  // --- what the flasher may rely on -------------------------------------------------------------

  /** In this event a PTT key of this slot is acknowledged. */
  ghost predicate AcknowledgesKey(g: Gate, e: Event) {
    e.Return? && e.id in g.calls && g.calls[e.id].purpose.KeyOn? && g.calls[e.id].stage == Replied(true)
  }

  /**
    From the moment `_pause_when_idle` returns true until resume: no acknowledged key is live, no
    key command is even under way so none can be acknowledged, and the device is opened for
    fail-safe unkeys only, whatever was queued when the pause began.
   */
  lemma OwnedSlotIsQuiet(gs: seq<Gate>, es: seq<Event>, n: nat, id: nat, u: string)
    requires IsRun(gs, es) && n < |es| && gs[n].flasher.Owns?
    ensures !Live(gs, es, n, u) && !AcknowledgesKey(gs[n], es[n])
    ensures es[n] == OpenDevice(id, true) || InStage(gs[n], id, Open) ==>
              id in gs[n].calls && gs[n].calls[id].purpose.Unkey?
  {
    SetsTellEvents(gs, es, n, u);
    RunKeepsInv(gs, es, n);
    assert StepAt(gs, es, n);
  }

  /** The control line has one owner at a time, across the loop, the probes and the flasher. */
  lemma SingleOwner(gs: seq<Gate>, es: seq<Event>, n: nat, i: nat, j: nat)
    requires IsRun(gs, es) && n < |gs| && InStage(gs[n], i, Open)
    ensures InStage(gs[n], j, Open) ==> i == j
    ensures !OnDevice(gs[n], j) && !gs[n].flasher.InBarrier?
  {
    RunKeepsInv(gs, es, n);
  }

  /** The unkey `id` waits for a lock or for the pause to be asked about. */
  ghost predicate Waiting(g: Gate, id: nat) {
    && id in g.calls && g.calls[id].purpose.Unkey?
    && (g.calls[id].stage.Queued? || g.calls[id].stage.Submitted? || g.calls[id].stage.Locked?)
  }

  lemma WaitingStep(g: Gate, e: Event, id: nat)
    requires LocksInv(g) && Enabled(g, e) && Waiting(g, id)
    ensures Waiting(Step(g, e), id) || InStage(Step(g, e), id, Cleared) || e == DeviceBusy(id)
    ensures e == Grant(id) ==> InStage(Step(g, e), id, Submitted)
    ensures e == TakeDevice(id) ==> InStage(Step(g, e), id, Locked)
    ensures e == AskAbort(id) ==> InStage(Step(g, e), id, Cleared)
  {
    if OnThread(e) {
      WaitingOnThread(g, e, id);
    } else if OnLoop(e) {
      WaitingOnLoop(g, e, id);
    }
  }

  lemma WaitingOnThread(g: Gate, e: Event, id: nat)
    requires LocksInv(g) && Enabled(g, e) && Waiting(g, id) && OnThread(e)
    ensures Waiting(Step(g, e), id) || InStage(Step(g, e), id, Cleared) || e == DeviceBusy(id)
    ensures e == TakeDevice(id) ==> InStage(Step(g, e), id, Locked)
    ensures e == AskAbort(id) ==> InStage(Step(g, e), id, Cleared)
  {
  }

  lemma WaitingOnLoop(g: Gate, e: Event, id: nat)
    requires LocksInv(g) && Enabled(g, e) && Waiting(g, id) && OnLoop(e)
    ensures Waiting(Step(g, e), id) && (e == Grant(id) ==> InStage(Step(g, e), id, Submitted))
  {
  }

  ghost predicate ClearedIn(gs: seq<Gate>, n: nat, m: nat, id: nat) {
    exists k: nat :: n <= k <= m && k < |gs| && InStage(gs[k], id, Cleared)
  }

  ghost predicate TimedOutIn(es: seq<Event>, n: nat, m: nat, id: nat) {
    exists k: nat :: n <= k < m && k < |es| && es[k] == DeviceBusy(id)
  }

  /** Each of its own three steps takes a waiting unkey further, paused or not. */
  lemma UnkeyMovesOn(gs: seq<Gate>, es: seq<Event>, k: nat, id: nat)
    requires IsRun(gs, es) && k < |es| && Waiting(gs[k], id)
    ensures es[k] == Grant(id) ==> InStage(gs[k + 1], id, Submitted)
    ensures es[k] == TakeDevice(id) ==> InStage(gs[k + 1], id, Locked)
    ensures es[k] == AskAbort(id) ==> InStage(gs[k + 1], id, Cleared)
    ensures Waiting(gs[k + 1], id) || InStage(gs[k + 1], id, Cleared) || es[k] == DeviceBusy(id)
  {
    RunKeepsInv(gs, es, k);
    assert StepAt(gs, es, k);
    WaitingStep(gs[k], es[k], id);
  }

  /**
    Over every run, whatever pauses come: a fail-safe unkey that was queued at `n` still waits, or has
    been cleared to open the device, or lost its device lock to a timeout; nothing refuses it.
   */
  lemma {:induction false} UnkeyIsNeverRefused(gs: seq<Gate>, es: seq<Event>, n: nat, m: nat, id: nat)
    requires IsRun(gs, es) && n <= m < |gs| && Waiting(gs[n], id)
    ensures Waiting(gs[m], id) || ClearedIn(gs, n, m, id) || TimedOutIn(es, n, m, id)
  {
    if n < m {
      UnkeyIsNeverRefused(gs, es, n, m - 1, id);
      if Waiting(gs[m - 1], id) {
        UnkeyMovesOn(gs, es, m - 1, id);
      } else if ClearedIn(gs, n, m - 1, id) {
        var k: nat :| n <= k <= m - 1 && k < |gs| && InStage(gs[k], id, Cleared);
        assert ClearedIn(gs, n, m, id);
      } else {
        var k: nat :| n <= k < m - 1 && k < |es| && es[k] == DeviceBusy(id);
        assert TimedOutIn(es, n, m, id);
      }
    }
  }

  // --- probes -------------------------------------------------------------------------------------

  ghost predicate ProbesOff(g: Gate) {
    forall i: nat :: !PastCheck(g, i) && (PastBarrier(g.flasher) ==> !OnDevice(g, i))
  }

  lemma ProbesOffStep(g: Gate, e: Event)
    requires LocksInv(g) && Enabled(g, e) && ProbesOff(g) && (g.paused || e.Pause?)
    ensures ProbesOff(Step(g, e))
  {
    var g' := Step(g, e);
    forall i: nat
      ensures !PastCheck(g', i) && (PastBarrier(g'.flasher) ==> !OnDevice(g', i))
    {
      assert !PastCheck(g, i) && (OnDevice(g, i) <==> g.device == Some(ByProbe(i)));
    }
  }

  /** If no probe was past its check when the pause began, none opens the device behind the barrier. */
  lemma {:induction false} ProbesStayOff(gs: seq<Gate>, es: seq<Event>, i: nat, j: nat)
    requires IsRun(gs, es) && i < j < |gs| && es[i].Pause? && (forall p: nat :: !PastCheck(gs[i], p))
    requires forall k :: i < k <= j ==> gs[k].paused
    ensures ProbesOff(gs[j])
  {
    RunKeepsInv(gs, es, j - 1);
    assert StepAt(gs, es, j - 1);
    if i + 1 < j {
      ProbesStayOff(gs, es, i, j - 1);
    }
    ProbesOffStep(gs[j - 1], es[j - 1]);
  }

  /** A run of the gate from anywhere, paused throughout. */
  ghost predicate PausedPath(gs: seq<Gate>, es: seq<Event>) {
    && |gs| == |es| + 1 && (forall k :: 0 <= k < |es| ==> StepAt(gs, es, k))
    && forall k :: 0 <= k < |gs| ==> gs[k].paused
  }

  /** A probe is on the device behind the barrier. */
  ghost predicate SlippedIn(g: Gate) {
    PastBarrier(g.flasher) && exists i: nat :: OnDevice(g, i)
  }

  ghost predicate CanSlipIn(g: Gate) {
    exists gs, es :: PausedPath(gs, es) && gs[0] == g && SlippedIn(gs[|es|])
  }

  lemma {:induction false} PathKeepsOff(gs: seq<Gate>, es: seq<Event>, n: nat)
    requires PausedPath(gs, es) && n < |gs| && LocksInv(gs[0]) && ProbesOff(gs[0])
    ensures LocksInv(gs[n]) && ProbesOff(gs[n])
  {
    if n > 0 {
      PathKeepsOff(gs, es, n - 1);
      assert StepAt(gs, es, n - 1);
      LocksStep(gs[n - 1], es[n - 1]);
      ProbesOffStep(gs[n - 1], es[n - 1]);
    }
  }

  lemma SlipsBefore(g: Gate, e: Event)
    requires g.paused && Enabled(g, e) && CanSlipIn(Step(g, e))
    ensures CanSlipIn(g)
  {
    var gs, es :| PausedPath(gs, es) && gs[0] == Step(g, e) && SlippedIn(gs[|es|]);
    var gs', es' := [g] + gs, [e] + es;
    forall k | 0 <= k < |es'|
      ensures StepAt(gs', es', k)
    {
      assert k > 0 ==> StepAt(gs, es, k - 1);
    }
    assert PausedPath(gs', es') && gs'[0] == g && gs'[|es'|] == gs[|es|];
  }

  lemma SlippedCan(g: Gate)
    requires g.paused && SlippedIn(g)
    ensures CanSlipIn(g)
  {
    assert PausedPath([g], []) && [g][0] == g;
  }

  /** With the device free, the probe waits at most for the barrier to be over. */
  lemma FreeSlips(g: Gate, i: nat)
    requires g.paused && PastCheck(g, i) && g.device.None? && (g.flasher.Pausing? || PastBarrier(g.flasher))
    ensures CanSlipIn(g)
  {
    if g.flasher.Pausing? {
      var inside := Step(g, EnterBarrier);
      var past := Step(inside, LeaveBarrier);
      TakesDevice(past, i);
      SlipsBefore(inside, LeaveBarrier);
      SlipsBefore(g, EnterBarrier);
    } else {
      TakesDevice(g, i);
    }
  }

  lemma TakesDevice(g: Gate, i: nat)
    requires g.paused && PastCheck(g, i) && g.device.None? && PastBarrier(g.flasher)
    ensures CanSlipIn(g)
  {
    assert OnDevice(Step(g, ProbeTake(i)), i);
    SlippedCan(Step(g, ProbeTake(i)));
    SlipsBefore(g, ProbeTake(i));
  }

  /** Whoever holds the device can leave it in one or two steps. */
  lemma HeldSlips(g: Gate, i: nat)
    requires Inv(g) && g.paused && PastCheck(g, i) && g.device.Some?
    ensures CanSlipIn(g)
  {
    match g.device.value
    case ByFlasher =>
      FreeSlips(Step(g, LeaveBarrier), i);
      SlipsBefore(g, LeaveBarrier);
    case ByProbe(j) =>
      assert OnDevice(g, j);
      FreeSlips(Step(g, ProbeClose(j)), i);
      SlipsBefore(g, ProbeClose(j));
    case ByCall(id) => CallSlips(g, i, id);
  }

  lemma CallSlips(g: Gate, i: nat, id: nat)
    requires Inv(g) && g.paused && PastCheck(g, i) && g.device == Some(ByCall(id))
    ensures CanSlipIn(g)
  {
    match g.calls[id].stage
    case Open =>
      FreeSlips(Step(g, CloseDevice(id, false)), i);
      SlipsBefore(g, CloseDevice(id, false));
    case Cleared =>
      FreeSlips(Step(g, OpenDevice(id, false)), i);
      SlipsBefore(g, OpenDevice(id, false));
    case Locked =>
      var asked := Step(g, AskAbort(id));
      if Failsafe(g.calls[id].purpose) {
        FreeSlips(Step(asked, OpenDevice(id, false)), i);
        SlipsBefore(asked, OpenDevice(id, false));
      } else {
        FreeSlips(asked, i);
      }
      SlipsBefore(g, AskAbort(id));
  }

  /**
    `discover_slots` asks for the pause before `probe_slot` takes the device lock.  From every state
    of a pause, a probe can get on the device behind the barrier while the pause lasts if and only if
    one is there or is past its check; as the pause begins, if and only if one is past its check.
   */
  lemma ProbeSlipsInIff(g: Gate)
    requires Inv(g) && g.paused
    ensures CanSlipIn(g) <==> SlippedIn(g) || exists i: nat :: PastCheck(g, i)
    ensures g.flasher.Pausing? ==> (CanSlipIn(g) <==> exists i: nat :: PastCheck(g, i))
  {
    if SlippedIn(g) {
      SlippedCan(g);
    } else if i: nat :| PastCheck(g, i) {
      if g.device.None? {
        FreeSlips(g, i);
      } else {
        HeldSlips(g, i);
      }
    } else if CanSlipIn(g) {
      var gs, es :| PausedPath(gs, es) && gs[0] == g && SlippedIn(gs[|es|]);
      PathKeepsOff(gs, es, |es|);
    }
  }

  /** A run from the start in which a probe gets on the device under the flasher. */
  lemma ProbeSlipsInExample() returns (gs: seq<Gate>, es: seq<Event>)
    ensures IsRun(gs, es) && gs[|es|].flasher.Owns? && OnDevice(gs[|es|], 0)
    ensures PastCheck(gs[1], 0) && es[1].Pause?
  {
    es := [ProbeCheck(0), Pause, EnterBarrier, LeaveBarrier, Query, Decide(false), ProbeTake(0)];
    var g1 := Init().(probes := map[0 := Checked]);
    var g2 := g1.(paused := true, flasher := Pausing);
    var g6 := g2.(flasher := Owns);
    gs := [Init(), g1, g2, g2.(flasher := InBarrier, device := Some(ByFlasher)),
           g2.(flasher := Asking), g2.(flasher := Answered(false)), g6,
           g6.(probes := map[0 := Probing], device := Some(ByProbe(0)))];
    forall k | 0 <= k < |es|
      ensures StepAt(gs, es, k)
    {
    }
  }
}

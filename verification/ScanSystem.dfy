/**
  The carrier scanner and the broker around it, as the interleaving the control loop runs: the
  scan task, the message handler (one message at a time) and the dead-man tasks.

  Each event is one coroutine running from the await it is suspended at to its next await.  Where
  the code checks and then acts without an await in between, the event does both.  The outcome of
  a device command, the clock and the set of paused slots are the event's `Choice`.
 */
module ScanSystem {
  import opened Options
  import opened ScanList
  import B = PttBroker

  datatype Kind = Held | Stopped

  /** A `scan_state` frame; only the two kinds that name the tuned entry are kept. */
  datatype Frame = Frame(scan: nat, kind: Kind, ref: Option<string>)

  /** The scanner's fields.  A scan is named by the task that runs it. */
  datatype Scanner = Scanner(
    task: Option<nat>,
    list: Cursor,
    tuned: Option<string>,
    routed: Option<string>,
    held: bool,
    holdGen: nat,
    visitGen: nat,
    stopping: bool,
    skip: bool,
    resume: bool
  )

  /**
    The bodies `_step` runs: announce, apply, read the carrier, route, announce, read again; the last two
    with the carrier up or in the hang time after it dropped.
   */
  datatype Work = Scanning | Apply | Listen | RouteTx | Announce(hang: bool) | Poll(hang: bool)

  /** Where a scan task is suspended. */
  datatype Runner =
    | Top                                  // about to take the next turn of `_run`
    | Parked                               // in `_wait_resume`
    | HoldWait                             // its own hold(), queued on the step lock
    | HoldEmit(pos: Option<nat>)           // ... sending the held frame
    | HoldRoute(entry: Entry)              // ... moving tx_route
    | Wait(work: Work, entry: Entry)       // `_step`, queued on the step lock
    | Body(work: Work, entry: Entry)       // `_step`, inside the lock
    | Sleep(next: Work, entry: Entry)      // before the next carrier read
    | Sending(frame: Frame)                // `_finish`, sending the terminal frame

  /** What the handler goes on to do once its hold() returns. */
  datatype Next = Done | Device(addr: B.Addr) | KeyUp(addr: B.Addr)

  /** Where the message handler is suspended. */
  datatype Handler =
    | Ready
    | HoldingWait(keyed: Option<B.Addr>, next: Next)
    | HoldingEmit(pos: Option<nat>, keyed: Option<B.Addr>, next: Next)
    | HoldingRoute(entry: Entry, next: Next)
    | Keying(addr: B.Addr, on: bool)
    | OnDevice(addr: B.Addr, scanned: bool)  // a hand retune or preset
    | StopWait(task: nat, start: Option<seq<Entry>>)
    | StopJoin(task: nat, start: Option<seq<Entry>>)
    | StopSend(frame: Frame, start: Option<seq<Entry>>)
    | Dead                                 // an exception ended the connection

  datatype Owner = ByRunner(task: nat) | ByHandler

  datatype Sys = Sys(
    sc: Scanner,
    lock: Option<Owner>,
    handler: Handler,
    runners: map<nat, Runner>,
    started: nat,
    br: B.State,
    frames: seq<Frame>
  )

  datatype Outcome = Good | Updating | Bad | Raised | CarrierOn | CarrierOff

  datatype Choice = Choice(outcome: Outcome, drained: bool, due: bool)

  datatype Event =
    | Ptt(addr: B.Addr, on: bool)
    | Keepalive(addr: B.Addr)
    | HoldMsg
    | ResumeMsg
    | SkipMsg
    | StopMsg
    | Manual(addr: B.Addr)        // a hand retune or preset of this module
    | Update(list: seq<Entry>)
    | Start(list: seq<Entry>)
    | HandlerGo(pos: nat, ok: bool)
    | RunnerGo(task: nat, choice: Choice)
    | Cancel(task: nat)
    | BrokerGo(e: B.Event)        // dead-man tasks, fail-safe results and the clock

  // --- scanner helpers --------------------------------------------------------------------

  const NO_LIST := Cursor([], None, 0, 0)

  const IDLE := Scanner(None, NO_LIST, None, None, false, 0, 0, false, false, false)

  function Fresh(task: nat, list: seq<Entry>): Scanner {
    IDLE.(task := Some(task), list := Cursor(list, None, 0, 0))
  }

  /** `active_slots`: a running scan has, or will have, an entry on this slot. */
  predicate Scanned(sc: Scanner, slot: int) {
    sc.task.Some? && (OnSlot(sc.list.entries, slot) || (sc.list.pending.Some? && OnSlot(sc.list.pending.value, slot)))
  }

  predicate OnSlot(es: seq<Entry>, slot: int) {
    exists i :: 0 <= i < |es| && es[i].addr.slot == slot
  }

  function TunedPos(sc: Scanner): Option<nat> {
    if sc.tuned.None? then None else FindRef(sc.list.entries, sc.tuned.value)
  }

  /** The entry a held or stopped frame names. */
  function NamedRef(sc: Scanner): Option<string> {
    match TunedPos(sc)
    case None => None
    case Some(p) => Some(sc.list.entries[p].ref)
  }

  predicate HoldRefused(sc: Scanner) {
    sc.task.None? || sc.held || sc.stopping
  }

  function MarkHeld(sc: Scanner): Scanner {
    sc.(held := true, holdGen := sc.holdGen + 1, resume := false)
  }

  /** Under the step lock: park on the tuned entry and send the held frame. */
  function ParkHeld(s: Sys, owner: Owner): Sys
    requires s.sc.task.Some?
  {
    var pos := TunedPos(s.sc);
    s.(sc := if pos.None? then s.sc else s.sc.(list := s.sc.list.(index := pos.value)),
       lock := Some(owner),
       frames := s.frames + [Frame(s.sc.task.value, Held, NamedRef(s.sc))])
  }

  // --- the scan task ----------------------------------------------------------------------

  function Put(s: Sys, t: nat, r: Runner): Sys {
    s.(runners := s.runners[t := r])
  }

  function Drop(s: Sys, t: nat): Sys {
    s.(runners := s.runners - {t})
  }

  /** Self-termination; an external stop() owns the shutdown if one is under way. */
  function Finish(s: Sys, t: nat): Sys {
    if s.sc.stopping || s.sc.task.None? then Drop(s, t)
    else Put(s.(sc := IDLE), t, Sending(Frame(s.sc.task.value, Stopped, NamedRef(s.sc))))
  }

  function HoldIfKeyed(s: Sys, t: nat, next: Runner): Sys {
    if !B.PttActive(s.br) then Put(s, t, next)
    else if HoldRefused(s.sc) then Put(s, t, Top)
    else Put(s.(sc := MarkHeld(s.sc)), t, HoldWait)
  }

  function LeaveVisit(s: Sys, t: nat, reachable: bool): Sys {
    if !InRange(s.sc.list) then Finish(s, t) else
      match EndVisit(s.sc.list, reachable)
      case None => Finish(s, t)
      case Some(c) => Put(s.(sc := s.sc.(list := c)), t, Top)
  }

  function Turn(s: Sys, t: nat, drained: bool): Sys {
    if s.sc.held then
      if s.sc.resume then
        if InRange(s.sc.list) then s.(sc := s.sc.(list := NextIndex(s.sc.list, 0))) else Finish(s, t)
      else if drained then Finish(s, t)
      else Put(s, t, Parked)
    else if s.sc.stopping then Drop(s, t)
    else if !InRange(s.sc.list) then Finish(s, t)
    else
      var entry := s.sc.list.entries[s.sc.list.index];
      HoldIfKeyed(s.(sc := s.sc.(skip := false, visitGen := s.sc.holdGen)), t, Wait(Scanning, entry))
  }

  function Unpark(s: Sys, t: nat, drained: bool): Sys {
    if s.sc.resume then
      if InRange(s.sc.list) then Put(s.(sc := s.sc.(list := NextIndex(s.sc.list, 0))), t, Top)
      else Finish(s, t)
    else if drained then Finish(s, t)
    else s
  }

  /** The held frame is out; `_entries[pos]` is looked up again after that await. */
  function RunnerHeld(s: Sys, t: nat, pos: Option<nat>): Sys {
    if pos.None? || s.sc.routed == s.sc.tuned then Put(s.(lock := None), t, Top)
    else if |s.sc.list.entries| <= pos.value then Finish(s.(lock := None), t)
    else if B.PttActive(s.br) then Put(s.(lock := None), t, Top)
    else Put(s, t, HoldRoute(s.sc.list.entries[pos.value]))
  }

  function EnterBody(s: Sys, t: nat, work: Work, entry: Entry, drained: bool): Sys {
    if s.sc.held || s.sc.stopping || s.sc.visitGen != s.sc.holdGen then Put(s, t, Top)
    else if drained then Finish(s, t)
    else Put(s.(lock := Some(ByRunner(t))), t, Body(work, entry))
  }

  /** From the end of a body, with the lock released, to the next await. */
  function LeaveBody(s: Sys, t: nat, work: Work, entry: Entry, c: Choice): Sys {
    match work
    case Scanning => Put(s, t, Wait(Apply, entry))
    case Apply =>
      var tuned := s.(sc := s.sc.(tuned := if c.outcome.Good? then Some(entry.ref) else None));
      // An apply that raises never gets to note its outcome.
      if c.outcome.Raised? then Finish(s, t)
      else if c.outcome.Updating? then Finish(tuned, t)
      else if !c.outcome.Good? then LeaveVisit(tuned, t, false)
      else if s.sc.skip then LeaveVisit(tuned, t, true)
      else Put(tuned, t, Wait(Listen, entry))
    case RouteTx => Put(s.(sc := s.sc.(routed := Some(entry.ref))), t, Wait(Announce(false), entry))
    case Announce(hang) => NextPoll(s, t, entry, hang)
    case Listen =>
      if c.outcome.Updating? || c.outcome.Raised? then Finish(s, t)
      else if c.outcome.CarrierOn? then HoldIfKeyed(s, t, Wait(RouteTx, entry))
      else if !c.outcome.CarrierOff? then LeaveVisit(s, t, false)
      else if c.due then LeaveVisit(s, t, true)
      else Put(s, t, Sleep(Listen, entry))
    case Poll(hang) =>
      if c.outcome.Updating? || c.outcome.Raised? then Finish(s, t)
      else if !c.outcome.CarrierOn? && !c.outcome.CarrierOff? then LeaveVisit(s, t, false)
      else if c.outcome.CarrierOn? == hang then Put(s, t, Wait(Announce(!hang), entry))
      else if c.outcome.CarrierOff? && c.due then LeaveVisit(s, t, true)
      else NextPoll(s, t, entry, hang)
  }

  function NextPoll(s: Sys, t: nat, entry: Entry, hang: bool): Sys {
    if s.sc.skip then LeaveVisit(s, t, true) else Put(s, t, Sleep(Poll(hang), entry))
  }

  function RunnerStep(s: Sys, t: nat, c: Choice): Sys
    requires t in s.runners
  {
    match s.runners[t]
    case Top => Turn(s, t, c.drained)
    case Parked => Unpark(s, t, c.drained)
    case HoldWait =>
      if s.sc.task.None? || s.sc.stopping then Put(s, t, Top)
      else Put(ParkHeld(s, ByRunner(t)), t, HoldEmit(TunedPos(s.sc)))
    case HoldEmit(pos) => RunnerHeld(s, t, pos)
    case HoldRoute(entry) => Put(s.(sc := s.sc.(routed := Some(entry.ref)), lock := None), t, Top)
    case Wait(work, entry) => EnterBody(s, t, work, entry, c.drained)
    case Body(work, entry) => LeaveBody(s.(lock := None), t, work, entry, c)
    case Sleep(next, entry) =>
      if !next.Poll? && s.sc.skip then LeaveVisit(s, t, true) else Put(s, t, Wait(next, entry))
    case Sending(frame) => Drop(s.(frames := s.frames + [frame]), t)
  }

  // --- the message handler ----------------------------------------------------------------

  function KeyOnWire(s: Sys, a: B.Addr, on: bool): Sys {
    if B.Enabled(s.br, B.KeyStart(a, on)) then
      s.(br := B.Step(s.br, B.KeyStart(a, on)), handler := Keying(a, on))
    else s.(handler := Dead)
  }

  function Proceed(s: Sys, next: Next): Sys {
    match next
    case Done => s.(handler := Ready)
    case Device(a) => s.(handler := OnDevice(a, true))
    case KeyUp(a) => KeyOnWire(s, a, true)
  }

  function HandlerHold(s: Sys, keyed: Option<B.Addr>, next: Next): Sys {
    if HoldRefused(s.sc) then Proceed(s, next)
    else s.(sc := MarkHeld(s.sc), handler := HoldingWait(keyed, next))
  }

  function StartNow(s: Sys, start: Option<seq<Entry>>): Sys {
    match start
    case None => s.(handler := Ready)
    case Some(list) =>
      s.(sc := Fresh(s.started, list), runners := s.runners[s.started := Top],
         started := s.started + 1, handler := Ready)
  }

  function HandlerStop(s: Sys, start: Option<seq<Entry>>): Sys {
    if s.sc.task.None? || s.sc.stopping then StartNow(s, start)
    else s.(sc := s.sc.(stopping := true), handler := StopWait(s.sc.task.value, start))
  }

  function Message(s: Sys, e: Event): Sys {
    match e
    case Ptt(a, on) => if on then HandlerHold(s, Some(a), KeyUp(a)) else KeyOnWire(s, a, false)
    case Keepalive(a) =>
      if B.Enabled(s.br, B.Keepalive(a)) then s.(br := B.Step(s.br, B.Keepalive(a))) else s
    case HoldMsg => HandlerHold(s, None, Done)
    case ResumeMsg =>
      if s.sc.task.Some? && s.sc.held then s.(sc := s.sc.(held := false, resume := true)) else s
    case SkipMsg =>
      if s.sc.task.None? then s
      else if !s.sc.held then s.(sc := s.sc.(skip := true))
      else if !InRange(s.sc.list) then s.(handler := Dead)
      else s.(sc := s.sc.(list := NextIndex(s.sc.list, 1), held := false, resume := true))
    case StopMsg => HandlerStop(s, None)
    case Manual(a) =>
      if Scanned(s.sc, a.slot) then HandlerHold(s, None, Device(a)) else s.(handler := OnDevice(a, false))
    case Update(list) =>
      if s.sc.task.None? then s
      else if list == [] then HandlerStop(s, None)
      else s.(sc := s.sc.(list := s.sc.list.(pending := Some(list))))
    case Start(list) => HandlerStop(s, Some(list))
    case _ => s
  }

  function HandlerHeld(s: Sys, pos: Option<nat>, keyed: Option<B.Addr>, next: Next): Sys {
    if pos.None? || s.sc.routed == s.sc.tuned then Proceed(s.(lock := None), next)
    else if |s.sc.list.entries| <= pos.value then s.(lock := None, handler := Dead)
    else
      var entry := s.sc.list.entries[pos.value];
      if keyed == Some(entry.addr) || (keyed.None? && !B.PttActive(s.br)) then
        s.(handler := HoldingRoute(entry, next))
      else Proceed(s.(lock := None), next)
  }

  function HandlerStep(s: Sys, pos: nat, ok: bool): Sys {
    match s.handler
    case HoldingWait(keyed, next) =>
      if s.sc.task.None? || s.sc.stopping then Proceed(s, next)
      else ParkHeld(s, ByHandler).(handler := HoldingEmit(TunedPos(s.sc), keyed, next))
    case HoldingEmit(p, keyed, next) => HandlerHeld(s, p, keyed, next)
    case HoldingRoute(entry, next) =>
      Proceed(s.(sc := s.sc.(routed := Some(entry.ref)), lock := None), next)
    case Keying(_, _) =>
      if B.Enabled(s.br, B.KeyDone(pos, ok)) then
        s.(br := B.Step(s.br, B.KeyDone(pos, ok)), handler := Ready)
      else s
    case OnDevice(_, _) => s.(handler := Ready)
    case StopWait(t, start) => s.(handler := StopJoin(t, start))
    case StopJoin(t, start) =>
      s.(sc := IDLE, handler := StopSend(Frame(t, Stopped, NamedRef(s.sc)), start))
    case StopSend(frame, start) => StartNow(s.(frames := s.frames + [frame]), start)
    case _ => s
  }

  // --- runs -------------------------------------------------------------------------------

  predicate InLock(r: Runner) {
    r.Body? || r.HoldEmit? || r.HoldRoute?
  }

  predicate InVisit(r: Runner) {
    r.Wait? || r.Body? || r.Sleep?
  }

  predicate HandlerEnabled(s: Sys, pos: nat, ok: bool) {
    match s.handler
    case Ready => false
    case Dead => false
    case HoldingWait(_, _) => s.lock.None?
    case StopWait(_, _) => s.lock.None?
    case StopJoin(t, _) => t !in s.runners
    case Keying(_, _) => B.Enabled(s.br, B.KeyDone(pos, ok))
    case _ => true
  }

  predicate Enabled(s: Sys, e: Event) {
    match e
    case HandlerGo(pos, ok) => HandlerEnabled(s, pos, ok)
    case RunnerGo(t, _) =>
      t in s.runners && (s.runners[t].Wait? || s.runners[t].HoldWait? ==> s.lock.None?)
    case Cancel(t) =>
      s.handler.StopJoin? && s.handler.task == t && t in s.runners && !InLock(s.runners[t])
    case BrokerGo(b) => (b.Fire? || b.FailsafeDone? || b.Tick?) && B.Enabled(s.br, b)
    case Start(list) => s.handler.Ready? && list != [] && Unique(list)
    case Update(list) => s.handler.Ready? && Unique(list)
    case _ => s.handler.Ready?
  }

  function Step(s: Sys, e: Event): Sys
    requires Enabled(s, e)
  {
    match e
    case HandlerGo(pos, ok) => HandlerStep(s, pos, ok)
    case RunnerGo(t, c) => RunnerStep(s, t, c)
    case Cancel(t) => Drop(s, t)
    case BrokerGo(b) => s.(br := B.Step(s.br, b))
    case _ => Message(s, e)
  }

  function Init(timeout: real): Sys {
    Sys(IDLE, None, Ready, map[], 0, B.Init(timeout), [])
  }

  ghost predicate StepAt(ss: seq<Sys>, es: seq<Event>, k: nat)
    requires |ss| == |es| + 1 && k < |es|
  {
    Enabled(ss[k], es[k]) && ss[k + 1] == Step(ss[k], es[k])
  }

  ghost predicate IsRun(ss: seq<Sys>, es: seq<Event>) {
    && |ss| == |es| + 1
    && ss[0].br.timeout >= 0.0 && ss[0] == Init(ss[0].br.timeout)
    && forall k :: 0 <= k < |es| ==> StepAt(ss, es, k)
  }
}

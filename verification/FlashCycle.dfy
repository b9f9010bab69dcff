/**
  One module flash cycle of `ModuleOta` and its recovery from a crash marker: what the result is, which
  exits leave the slot paused, what is persisted before the backend may flash, when the marker survives.

  What the steps come to is a `Weather` given to each cycle; steps that can raise have a case for it,
  and status reports, events and refreshes never do.
 */
module FlashCycle {
  import opened Options

  datatype Phase = Downloaded | Flashing

  datatype Marker = Marker(slot: int, phase: Phase)

  datatype Result = Success | Failed | RolledBack | Rejected | Busy

  /** What a backend answers. */
  datatype FlashOutcome = OkOutcome | RejectedOutcome | TransientOutcome | RolledBackOutcome | DfuStuckOutcome

  /** Calls into the backend. */
  datatype BackendCall = CalledFlash | CalledRecover

  datatype Fetch = Got | Missing | FetchRaised
  datatype Flash = Answered(o: FlashOutcome) | FlashRaised

  /** What recovery finds; `None` leaves the verdict to the poll. */
  datatype Recovery = Recovered(o: Option<FlashOutcome>) | RecoveryRaised

  /** The verify poll; the server may refuse the commit of a confirmed version. */
  datatype Poll = Confirmed | Reverted | PollRaised

  /** A live version read during recovery: the target or not. */
  datatype Look = OnTarget | OffTarget | LookRaised

  datatype Weather = Weather(
    idle: bool,        // the slot is free behind the barrier
    fetch: Fetch,
    saved: bool,       // the first save of the marker works
    savedAgain: bool,  // and the second
    flash: Flash,
    recovery: Recovery,
    poll: Poll,
    look: Look,
    refused: bool,     // the server refuses the commit
    removed: bool      // the marker file can be removed
  )

  /** The persisted marker and whether this marker's image was ever handed to the backend. */
  datatype Point = Point(marker: Option<Marker>, flashed: bool)

  /** The backend has been called only if "flashing" is on disk, so "downloaded" proves it was not. */
  ghost predicate Honest(p: Point) {
    p.flashed ==> p.marker.Some? && p.marker.value.phase.Flashing?
  }

  /** The result of a flash or a recovery that answered `o`; `None` when the poll raised. */
  ghost predicate Judged(r: Option<Result>, o: FlashOutcome, poll: Poll, refused: bool) {
    && r != Some(Busy)
    && (r == Some(Success) <==> o.OkOutcome? && poll.Confirmed? && !refused)
    && (r == Some(Rejected) <==> o.RejectedOutcome?)
    && (r == Some(Failed) <==> o.TransientOutcome?)
    && (r == Some(RolledBack) <==>
          o.RolledBackOutcome? || o.DfuStuckOutcome? || (o.OkOutcome? && (poll.Reverted? || (poll.Confirmed? && refused))))
    && (r.None? <==> o.OkOutcome? && poll.PollRaised?)
  }

  class ModuleOta {
    var paused: set<int>
    var marker: Option<Marker>  // module_ota.json
    var flashed: bool
    var calls: seq<BackendCall>
    var points: seq<Point>

    ghost predicate Valid()
      reads this
    {
      Honest(Point(marker, flashed)) && forall i :: 0 <= i < |points| ==> Honest(points[i])
    }

    constructor ()
      ensures Valid() && paused == {} && marker.None? && !flashed && calls == []
    {
      paused, marker, flashed, calls, points := {}, None, false, [], [];
    }

    // --- primitives -----------------------------------------------------------------------

    /** `Marker.save`: the file is replaced atomically, or the call raises and it is not. */
    method Save(m: Marker, ok: bool)
      requires Valid() && Honest(Point(Some(m), flashed))
      modifies this`marker, this`points
      ensures Valid() && marker == if ok then Some(m) else old(marker)
    {
      if ok {
        marker := Some(m);
        points := points + [Point(marker, flashed)];
      }
    }

    /** The backend may only flash under a persisted "flashing" marker. */
    method CallFlash()
      requires Valid() && marker.Some? && marker.value.phase.Flashing?
      modifies this`flashed, this`calls, this`points
      ensures Valid() && flashed && calls == old(calls) + [CalledFlash]
    {
      flashed := true;
      calls := calls + [CalledFlash];
      points := points + [Point(marker, flashed)];
    }

    /** From the backend's answer to the result. */
    method Judge(o: FlashOutcome, poll: Poll, refused: bool) returns (r: Option<Result>)
      ensures Judged(r, o, poll, refused)
    {
      match o
      case OkOutcome =>
        return match poll
               case PollRaised => None
               case Reverted => Some(RolledBack)
               case Confirmed => Some(if refused then RolledBack else Success);
      case RejectedOutcome => return Some(Rejected);
      case TransientOutcome => return Some(Failed);
      case _ => return Some(RolledBack);
    }

    // --- the cycle ------------------------------------------------------------------------

    /** Resumes the slot first; removing the marker file may fail and is only logged. */
    method Finish(slot: int, removed: bool)
      requires Valid()
      modifies this`paused, this`marker, this`flashed, this`points
      ensures Valid() && paused == old(paused) - {slot}
      ensures Point(marker, flashed) == if removed then Point(None, false) else old(Point(marker, flashed))
    {
      paused := paused - {slot};
      if removed {
        marker, flashed := None, false;
        points := points + [Point(marker, flashed)];
      }
    }

    method PauseWhenIdle(slot: int, idle: bool) returns (ok: bool)
      modifies this`paused
      ensures ok == idle && paused == if idle then old(paused) + {slot} else old(paused) - {slot}
    {
      paused := paused + {slot};
      ok := idle;
      if !ok {
        paused := paused - {slot};
      }
    }

    /**
      The backend is called exactly when the image is there and both saves worked, and then its answer and
      the verify poll decide; `None` when a step raised.
     */
    method DownloadAndFlash(slot: int, w: Weather) returns (r: Option<Result>)
      requires Valid() && marker.None?
      modifies this`marker, this`flashed, this`calls, this`points
      ensures Valid()
      ensures var reached := w.fetch.Got? && w.saved && w.savedAgain;
              && calls == old(calls) + (if reached then [CalledFlash] else [])
              && flashed == (old(flashed) || reached)
              && marker == (if !w.fetch.Got? || !w.saved then None
                            else Some(Marker(slot, if w.savedAgain then Flashing else Downloaded)))
              && if reached && w.flash.Answered? then Judged(r, w.flash.o, w.poll, w.refused)
                 else r == if w.fetch.Missing? then Some(Failed) else None
    {
      if w.fetch.FetchRaised? { return None; }
      if w.fetch.Missing? { return Some(Failed); }
      Save(Marker(slot, Downloaded), w.saved);
      if !w.saved { return None; }
      Save(Marker(slot, Flashing), w.savedAgain);
      if !w.savedAgain { return None; }
      CallFlash();
      if w.flash.FlashRaised? { return None; }
      r := Judge(w.flash.o, w.poll, w.refused);
    }

    /** A cycle without a leftover marker; every exit leaves the slot as it found it. */
    method FlashNow(slot: int, w: Weather) returns (r: Result)
      requires Valid() && marker.None? && slot !in paused
      modifies this
      ensures Valid() && paused == old(paused)
      ensures r == Busy <==> !w.idle
      ensures !w.idle ==> marker.None? && calls == old(calls)
      ensures var reached := w.fetch.Got? && w.saved && w.savedAgain;
              w.idle ==>
                && calls == old(calls) + (if reached then [CalledFlash] else [])
                && if reached && w.flash.Answered? then
                     Judged(Some(r), w.flash.o, w.poll, w.refused)
                     || (r == Failed && Judged(None, w.flash.o, w.poll, w.refused))
                   else r == Failed
      ensures marker.Some? ==> !w.removed && marker.value.slot == slot
      ensures w.idle && !w.removed && w.fetch.Got? && w.saved ==>
                marker == Some(Marker(slot, if w.savedAgain then Flashing else Downloaded))
    {
      var idle := PauseWhenIdle(slot, w.idle);
      if !idle { return Busy; }
      var done := DownloadAndFlash(slot, w);
      r := if done.None? then Failed else done.value;
      Finish(slot, w.removed);
    }

    /** Recovery never flashes and keeps the marker on purpose only while the device is busy. */
    method FinishFromMarker(w: Weather) returns (r: Result)
      requires Valid() && marker.Some?
      modifies this
      ensures Valid() && paused == old(paused) - {old(marker).value.slot}
      ensures r == Busy <==> !w.idle
      ensures marker == if w.idle && w.removed then None else old(marker)
      ensures calls == old(calls) + if w.idle && old(marker).value.phase.Flashing? then [CalledRecover] else []
      ensures w.idle && old(marker).value.phase.Downloaded? ==>
                r == if !w.look.OnTarget? then Failed else if w.refused then RolledBack else Success
      ensures w.idle && old(marker).value.phase.Flashing? ==>
                if w.recovery.RecoveryRaised? then r == Failed
                else
                  var o := if w.recovery.o.None? then OkOutcome else w.recovery.o.value;
                  Judged(Some(r), o, w.poll, w.refused) || (r == Failed && Judged(None, o, w.poll, w.refused))
    {
      var m := marker.value;
      paused := paused + {m.slot};
      if !w.idle {
        paused := paused - {m.slot};
        return Busy;
      }
      r := Failed;
      if m.phase.Downloaded? {
        if w.look.OnTarget? {
          r := if w.refused then RolledBack else Success;
        }
      } else {
        calls := calls + [CalledRecover];
        if w.recovery.Recovered? {
          var judged := Judge(if w.recovery.o.None? then OkOutcome else w.recovery.o.value, w.poll, w.refused);
          r := if judged.None? then Failed else judged.value;
        }
      }
      Finish(m.slot, w.removed);
    }

    /** `run_once` past its instruction checks: a leftover marker is finished before anything else. */
    method RunOnce(slot: int, w: Weather) returns (r: Result)
      requires Valid() && paused == {}
      modifies this
      ensures Valid() && paused == {}
      ensures r == Busy <==> !w.idle
      ensures old(marker).Some? ==>
                && marker == (if w.idle && w.removed then None else old(marker))
                && calls == old(calls) + if w.idle && old(marker).value.phase.Flashing? then [CalledRecover] else []
      ensures old(marker).None? && w.idle ==>
                calls == old(calls) + if w.fetch.Got? && w.saved && w.savedAgain then [CalledFlash] else []
    {
      if marker.Some? {
        r := FinishFromMarker(w);
      } else {
        r := FlashNow(slot, w);
      }
    }

    /** Cycles and crashes in any order: no crash point has a dishonest marker or a lasting pause. */
    method Lifetime(slots: seq<int>, ws: seq<Weather>)
      requires Valid() && paused == {} && |ws| == |slots|
      modifies this
      ensures Valid() && paused == {}
    {
      for k := 0 to |slots|
        invariant Valid() && paused == {}
      {
        var mark := |points|;
        var r := RunOnce(slots[k], ws[k]);
        var i: int := *;
        if mark <= i < |points| {
          // The pause registry dies with the process.
          marker, flashed := points[i].marker, points[i].flashed;
        }
      }
    }
  }
}

/** The timed verification poll after a module flash (`ModuleOta._verify`). */
module VerifyLoop {
  import opened Options

  const VERIFY_TIMEOUT := 180.0
  const VERIFY_POLL := 5.0
  const CONFIRM_GRACE := 3.0 * VERIFY_POLL

  /** One probe: the clock right after it and the version it reported, if it answered. */
  datatype Read = Read(at: real, version: Option<string>)

  /** What the poll is asked: reads before `settled` do not count. */
  datatype Query = Query(started: real, settled: real, confirm: real, target: string)

  predicate Trusted(r: Read, q: Query) {
    r.version.Some? && q.settled <= r.at
  }

  /** No trusted read so far reported another version. */
  ghost predicate AllOnTarget(log: seq<Read>, q: Query) {
    forall i :: 0 <= i < |log| && Trusted(log[i], q) ==> log[i].version == Some(q.target)
  }

  ghost predicate FirstTrusted(log: seq<Read>, q: Query, i: nat) {
    && i < |log| && Trusted(log[i], q)
    && forall j :: 0 <= j < i ==> !Trusted(log[j], q)
  }

  /**
    The target was read at or after settling and again a full confirm window later, with no
    trusted read of anything else in between; the reads coincide when the window is empty.
   */
  ghost predicate Confirmed(log: seq<Read>, q: Query) {
    && AllOnTarget(log, q) && log != []
    && Trusted(log[|log| - 1], q)
    && exists i: nat :: FirstTrusted(log, q, i) && log[i].at + q.confirm <= log[|log| - 1].at
  }

  /** The module came back with something else. */
  ghost predicate Reverted(log: seq<Read>, q: Query) {
    && log != [] && AllOnTarget(log[..|log| - 1], q)
    && Trusted(log[|log| - 1], q) && log[|log| - 1].version != Some(q.target)
  }

  function Max(a: real, b: real): real {
    if a < b then b else a
  }

  /** The poll ran out: never a trusted read by the deadline, or none late enough by the grace. */
  ghost predicate TimedOut(log: seq<Read>, q: Query) {
    && log != [] && AllOnTarget(log, q)
    && var end := log[|log| - 1].at;
       || ((forall i :: 0 <= i < |log| ==> !Trusted(log[i], q)) && q.started + VERIFY_TIMEOUT <= end)
       || (exists i: nat :: FirstTrusted(log, q, i)
                       && Max(q.started + VERIFY_TIMEOUT, log[i].at + q.confirm + CONFIRM_GRACE) <= end
                       && forall j :: 0 <= j < |log| && Trusted(log[j], q) ==> log[j].at < log[i].at + q.confirm)
  }

  /** The three outcomes exclude each other. */
  lemma OutcomesExclusive(log: seq<Read>, q: Query)
    ensures !(Confirmed(log, q) && Reverted(log, q))
    ensures !(Confirmed(log, q) && TimedOut(log, q))
    ensures !(Reverted(log, q) && TimedOut(log, q))
  {
  }

  // --- the poll so far ------------------------------------------------------------------------

  /** Undecided: the confirm window opened at the read `first`, and no read came after it. */
  ghost predicate Polling(log: seq<Read>, q: Query, window: Option<real>, first: nat) {
    && AllOnTarget(log, q)
    && match window
       case None => forall i :: 0 <= i < |log| ==> !Trusted(log[i], q)
       case Some(end) =>
         && FirstTrusted(log, q, first) && end == log[first].at + q.confirm
         && forall i :: 0 <= i < |log| && Trusted(log[i], q) ==> log[i].at < end
  }

  lemma PollUnreadable(log: seq<Read>, q: Query, window: Option<real>, first: nat, r: Read)
    requires Polling(log, q, window, first) && !Trusted(r, q)
    ensures Polling(log + [r], q, window, first)
  {
  }

  lemma PollReverted(log: seq<Read>, q: Query, window: Option<real>, first: nat, r: Read)
    requires Polling(log, q, window, first) && Trusted(r, q) && r.version != Some(q.target)
    ensures Reverted(log + [r], q)
  {
    assert (log + [r])[..|log|] == log;
  }

  /** A read on target opens the window if none is open, and decides once the window is over. */
  lemma PollOnTarget(log: seq<Read>, q: Query, window: Option<real>, first: nat, r: Read)
    requires Polling(log, q, window, first) && Trusted(r, q) && r.version == Some(q.target)
    ensures var first' := if window.None? then |log| else first;
            var window' := if window.None? then Some(r.at + q.confirm) else window;
            if window'.value <= r.at then Confirmed(log + [r], q)
            else Polling(log + [r], q, window', first')
  {
    var first' := if window.None? then |log| else first;
    assert FirstTrusted(log + [r], q, first');
  }

  lemma PollTimedOut(log: seq<Read>, q: Query, window: Option<real>, first: nat)
    requires Polling(log, q, window, first) && log != []
    requires EndOf(q.started + VERIFY_TIMEOUT, window) <= log[|log| - 1].at
    ensures TimedOut(log, q)
  {
    assert window.Some? ==> FirstTrusted(log, q, first);
  }

  // --- termination --------------------------------------------------------------------------

  /** Polls that still fit before `wake`. */
  function Rounds(now: real, wake: real): nat {
    if wake <= now then 0 else ((wake - now) / VERIFY_POLL).Floor + 1
  }

  lemma SleepUsesARound(now: real, later: real, wake: real)
    requires now < wake
    requires now + (if wake - now < VERIFY_POLL then wake - now else VERIFY_POLL) <= later
    ensures Rounds(later, wake) < Rounds(now, wake)
  {
    if later < wake {
      assert (wake - later) / VERIFY_POLL <= (wake - now) / VERIFY_POLL - 1.0;
    }
  }

  lemma LaterHasFewerRounds(now: real, later: real, wake: real)
    requires now <= later
    ensures Rounds(later, wake) <= Rounds(now, wake)
  {
    if later < wake {
      assert (wake - later) / VERIFY_POLL <= (wake - now) / VERIFY_POLL;
    }
  }

  /** 2 while nothing is confirmed yet, 1 inside the confirm window, 0 after it. */
  function StageOf(window: Option<real>, now: real): nat {
    if window.None? then 2 else if now < window.value then 1 else 0
  }

  function EndOf(deadline: real, window: Option<real>): real {
    if window.None? then deadline else Max(deadline, window.value + CONFIRM_GRACE)
  }

  function WakeOf(deadline: real, window: Option<real>, now: real): real {
    if window.Some? && now < window.value then window.value else EndOf(deadline, window)
  }

  class Poller {
    const exact: bool        // probes take no time and sleeps end on time
    var now: real
    var log: seq<Read>
    var verdicts: seq<bool>  // calls of the backend's after_verify

    constructor (exact: bool, now: real)
      ensures this.exact == exact && this.now == now && log == [] && verdicts == []
    {
      this.exact, this.now, log, verdicts := exact, now, [], [];
    }

    /** A probe answers or not, after however long. */
    method ReadIdentity() returns (version: Option<string>)
      modifies this`now, this`log
      ensures old(now) <= now && (exact ==> now == old(now))
      ensures log == old(log) + [Read(now, version)]
    {
      var wait: real := *;
      if !exact && wait > 0.0 {
        now := now + wait;
      }
      version := *;
      log := log + [Read(now, version)];
    }

    /** Sleeps at least as long as asked. */
    method Sleep(d: real)
      requires d > 0.0
      modifies this`now
      ensures old(now) + d <= now && (exact ==> now == old(now) + d)
    {
      var extra: real := *;
      now := now + d + if !exact && extra > 0.0 then extra else 0.0;
    }

    /** One read: a verdict, or the poll goes on, with the confirm window open once the target was read. */
    method Probe(q: Query, window: Option<real>, ghost first: nat)
      returns (verdict: Option<bool>, window': Option<real>, ghost first': nat)
      requires Polling(log, q, window, first)
      modifies this`now, this`log
      ensures old(now) <= now && (exact ==> now == old(now)) && log != [] && log[|log| - 1].at == now
      ensures verdict == Some(true) ==> Confirmed(log, q)
      ensures verdict == Some(false) ==> Reverted(log, q)
      ensures verdict.None? ==> Polling(log, q, window', first')
      ensures window' == window || (window.None? && window' == Some(now + q.confirm))
    {
      ghost var before := log;
      window', first' := window, first;
      var version := ReadIdentity();
      ghost var r := Read(now, version);
      if version.Some? && q.settled <= now {
        if version.value != q.target {
          PollReverted(before, q, window, first, r);
          return Some(false), window', first';
        }
        PollOnTarget(before, q, window, first, r);
        if window.None? {
          window', first' := Some(now + q.confirm), |before|;
        }
        if window'.value <= now {
          return Some(true), window', first';
        }
      } else {
        PollUnreadable(before, q, window, first, r);
      }
      verdict := None;
    }

    /** Sleeps until the next poll, at the latest until `wake`. */
    method AwaitNextPoll(ghost start: real, wake: real)
      requires start <= now < wake
      modifies this`now
      ensures old(now) <= now && (exact ==> now <= wake)
      ensures Rounds(now, wake) < Rounds(start, wake)
    {
      LaterHasFewerRounds(start, now, wake);
      ghost var probed := now;
      Sleep(if wake - now < VERIFY_POLL then wake - now else VERIFY_POLL);
      SleepUsesARound(probed, now, wake);
    }

    /**
      Commits exactly on a confirmed target.  With instantaneous probes and exact sleeps it ends
      within the verify timeout, the confirm window and its grace.
     */
    method Verify(q: Query) returns (commit: bool)
      requires q.started <= now && log == [] && verdicts == [] && 0.0 <= q.confirm
      modifies this
      ensures commit ==> Confirmed(log, q)
      ensures !commit ==> Reverted(log, q) || TimedOut(log, q)
      ensures verdicts == [commit]
      ensures exact && old(now) == q.started ==> now <= q.started + VERIFY_TIMEOUT + q.confirm + CONFIRM_GRACE
    {
      var deadline := q.started + VERIFY_TIMEOUT;
      var window: Option<real> := None;
      ghost var first: nat := 0;
      ghost var timed := exact && now == q.started;
      while true
        invariant Polling(log, q, window, first) && verdicts == []
        invariant timed ==> now <= EndOf(deadline, window)
        invariant timed && window.Some? ==> window.value <= deadline + q.confirm
        decreases StageOf(window, now), Rounds(now, WakeOf(deadline, window, now))
      {
        ghost var start := now;
        var verdict;
        verdict, window, first := Probe(q, window, first);
        if verdict.Some? {
          verdicts := verdicts + [verdict.value];
          return verdict.value;
        }
        if EndOf(deadline, window) <= now {
          PollTimedOut(log, q, window, first);
          break;
        }
        AwaitNextPoll(start, WakeOf(deadline, window, now));
      }
      verdicts := verdicts + [false];
      return false;
    }
  }
}

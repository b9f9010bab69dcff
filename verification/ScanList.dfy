/**
  The scanner's walk over its entry list: `_entries`, `_pending`, `_index` and `_fail_streak`,
  advanced by `_next_index` and by the end of a visit in `_run`.
 */
module ScanList {
  import opened Options
  import PttBroker

  /** A scan entry: its ref, the module it is on and the frequencies and tones to set there. */
  datatype Entry = Entry(ref: string, addr: PttBroker.Addr, tuning: string)

  /** Refs identify the entries of a list. */
  predicate Unique(es: seq<Entry>) {
    forall i, j :: 0 <= i < j < |es| ==> es[i].ref != es[j].ref
  }

  datatype Cursor = Cursor(
    entries: seq<Entry>,
    pending: Option<seq<Entry>>,  // list update not yet adopted
    index: nat,
    failStreak: nat
  )

  /** Position of the first entry with this ref. */
  function FindRef(es: seq<Entry>, ref: string): (r: Option<nat>)
    ensures r.Some? ==> r.value < |es| && es[r.value].ref == ref
    ensures r.Some? ==> forall i :: 0 <= i < r.value ==> es[i].ref != ref
    ensures r.None? ==> forall i :: 0 <= i < |es| ==> es[i].ref != ref
  {
    if es == [] then None
    else if es[0].ref == ref then Some(0)
    else
      match FindRef(es[1..], ref)
      case None => None
      case Some(i) => Some(i + 1)
  }

  /** A running scan has entries, a position among them and no empty update waiting. */
  predicate InRange(c: Cursor) {
    c.index < |c.entries| && (c.pending.Some? ==> c.pending.value != [])
  }

  function NextIndex(c: Cursor, offset: nat): (r: Cursor)
    requires InRange(c)
    ensures InRange(r) && r.pending.None?
  {
    match c.pending
    case None => c.(index := (c.index + offset) % |c.entries|)
    case Some(list) =>
      var pos := FindRef(list, c.entries[c.index].ref);
      Cursor(list, None, if pos.None? then c.index % |list| else (pos.value + offset) % |list|, 0)
  }

  /** An adopted list goes on with the current entry, or the one after it, if that survives. */
  lemma AdoptedListContinues(c: Cursor, p: nat)
    requires InRange(c) && c.pending.Some? && p < |c.pending.value|
    requires c.pending.value[p].ref == c.entries[c.index].ref
    requires forall i :: 0 <= i < p ==> c.pending.value[i].ref != c.entries[c.index].ref
    ensures var list := c.pending.value;
            && NextIndex(c, 0) == Cursor(list, None, p, 0)
            && NextIndex(c, 1) == Cursor(list, None, if p + 1 < |list| then p + 1 else 0, 0)
  {
    FirstRef(c.pending.value, c.entries[c.index].ref, p);
    WrapIsModulo(p, |c.pending.value|);
    WrapIsModulo(p + 1, |c.pending.value|);
  }

  lemma FirstRef(es: seq<Entry>, ref: string, p: nat)
    requires p < |es| && es[p].ref == ref && forall i :: 0 <= i < p ==> es[i].ref != ref
    ensures FindRef(es, ref) == Some(p)
  {
    var pos := FindRef(es, ref);
    assert !(pos.value < p) && !(p < pos.value);
  }

  /** Otherwise it goes on at the same position, taken around the list. */
  lemma AdoptedListKeepsPosition(c: Cursor, offset: nat)
    requires InRange(c) && c.pending.Some?
    requires forall i :: 0 <= i < |c.pending.value| ==> c.pending.value[i].ref != c.entries[c.index].ref
    ensures var r := NextIndex(c, offset);
            && r.entries == c.pending.value && r.pending.None? && r.failStreak == 0
            && (c.index < |r.entries| ==> r.index == c.index)
            && exists k: nat :: c.index == k * |r.entries| + r.index
  {
    var n := |c.pending.value|;
    assert FindRef(c.pending.value, c.entries[c.index].ref).None?;
    assert c.index == (c.index / n) * n + c.index % n;
  }

  /** The end of a visit; `None` when a whole pass failed and the scan stops. */
  function EndVisit(c: Cursor, reachable: bool): (r: Option<Cursor>)
    requires InRange(c)
    ensures r.Some? ==> InRange(r.value)
    ensures r.None? <==> !reachable && |c.entries| <= c.failStreak + 1
  {
    var streak := if reachable then 0 else c.failStreak + 1;
    if !reachable && |c.entries| <= streak then None
    else Some(NextIndex(c.(failStreak := streak), 1))
  }

  /** `i` taken once around a list of `n`. */
  function Wrap(i: nat, n: nat): nat
    requires i < 2 * n
  {
    if i < n then i else i - n
  }

  lemma EndVisitAdvances(c: Cursor, reachable: bool)
    requires InRange(c) && c.pending.None? && EndVisit(c, reachable).Some?
    ensures var d := EndVisit(c, reachable).value;
            d.entries == c.entries && d.pending.None? && d.index == Wrap(c.index + 1, |c.entries|)
  {
    WrapIsModulo(c.index + 1, |c.entries|);
  }

  lemma WrapIsModulo(i: nat, n: nat)
    requires i < 2 * n
    ensures Wrap(i, n) == i % n
  {
  }

  /** The scanner's own list fields, advanced in place. */
  class Walk {
    var entries: seq<Entry>
    var pending: Option<seq<Entry>>
    var index: nat
    var failStreak: nat

    ghost function View(): Cursor
      reads this
    {
      Cursor(entries, pending, index, failStreak)
    }

    constructor (list: seq<Entry>)
      requires list != []
      ensures View() == Cursor(list, None, 0, 0) && InRange(View())
    {
      entries, pending, index, failStreak := list, None, 0, 0;
    }

    method Locate(list: seq<Entry>, ref: string) returns (pos: Option<nat>)
      ensures pos == FindRef(list, ref)
    {
      for i := 0 to |list|
        invariant forall j :: 0 <= j < i ==> list[j].ref != ref
      {
        if list[i].ref == ref {
          return Some(i);
        }
      }
      return None;
    }

    method Advance(offset: nat)
      requires InRange(View())
      modifies this
      ensures InRange(View()) && View() == NextIndex(old(View()), offset)
    {
      if pending.Some? {
        var ref := entries[index].ref;
        entries, pending := pending.value, None;
        var pos := Locate(entries, ref);
        failStreak := 0;
        index := if pos.None? then index % |entries| else (pos.value + offset) % |entries|;
      } else {
        index := (index + offset) % |entries|;
      }
    }

    method FinishVisit(reachable: bool) returns (stop: bool)
      requires InRange(View())
      modifies this
      ensures InRange(View())
      ensures stop <==> EndVisit(old(View()), reachable).None?
      ensures !stop ==> View() == EndVisit(old(View()), reachable).value
    {
      if reachable {
        failStreak := 0;
      } else {
        failStreak := failStreak + 1;
        if failStreak >= |entries| {
          return true;
        }
      }
      Advance(1);
      stop := false;
    }
  }
}

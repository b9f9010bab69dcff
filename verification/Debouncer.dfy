/**
  The slot inventory debouncer: its dictionaries and loops, and a specification over the whole
  history of scans that they implement.
 */
module Debouncer {
  import opened Options
  import Sets

  datatype Module = Module(id: string, status: string)
  datatype Entry = Entry(slot: int, modules: seq<Module>)

  /** The view of an entry while its slot is being updated. */
  function Updating(e: Entry): (r: Entry)
    ensures |r.modules| == |e.modules| && r.slot == e.slot
    ensures forall k :: 0 <= k < |e.modules| ==> r.modules[k] == e.modules[k].(status := "updating")
  {
    e.(modules := seq(|e.modules|, k requires 0 <= k < |e.modules| => e.modules[k].(status := "updating")))
  }

  // --- the history of one slot ----------------------------------------------------------------------

  /** One call: a scan with the paused slots (and their snapshots), or dropping a slot. */
  datatype Op = Scan(found: seq<Entry>, paused: map<int, Option<Entry>>) | Forget(slot: int)

  /** What one call means for one slot. */
  datatype Look = Seen(e: Entry) | Missed | Paused | Dropped

  /** The last entry found for slot `x`. */
  function Found(found: seq<Entry>, x: int): Option<Entry> {
    if found == [] then None
    else
      var n := |found| - 1;
      if found[n].slot == x then Some(found[n]) else Found(found[..n], x)
  }

  /** Dropping another slot says nothing about this one. */
  function LookAt(op: Op, x: int): Option<Look> {
    match op
    case Forget(slot) => if slot == x then Some(Dropped) else None
    case Scan(found, paused) =>
      Some(if x in paused then Paused
           else if Found(found, x).Some? then Seen(Found(found, x).value) else Missed)
  }

  function Looks(ops: seq<Op>, x: int): seq<Look> {
    if ops == [] then []
    else
      var ls, look := Looks(ops[..|ops| - 1], x), LookAt(ops[|ops| - 1], x);
      if look.Some? then ls + [look.value] else ls
  }

  // --- the specification -----------------------------------------------------------------------------

  /** `n` misses in a row from `i` on. */
  ghost predicate Misses(ls: seq<Look>, i: nat, n: nat) {
    i + n <= |ls| && forall t :: i <= t < i + n ==> ls[t] == Missed
  }

  /** `ls[k]` is the latest sighting and the slot has not been dropped since. */
  ghost predicate LatestSighting(ls: seq<Look>, k: nat) {
    k < |ls| && ls[k].Seen? && forall j :: k < j < |ls| ==> !ls[j].Seen? && ls[j] != Dropped
  }

  /** A run of `n` misses, somewhere after `k`. */
  ghost predicate RunOfMisses(ls: seq<Look>, k: nat, n: nat) {
    exists i: nat :: k < i && Misses(ls, i, n)
  }

  /** The run of misses that drops a slot; even the first miss counts as more than a negative limit. */
  function Fatal(max: int): nat {
    if max < 0 then 1 else max + 1
  }

  /** The slot is retained with its latest sighting, and no run of misses was too long. */
  ghost predicate Retained(ls: seq<Look>, e: Entry, max: int) {
    exists k: nat :: LatestSighting(ls, k) && ls[k].e == e && !RunOfMisses(ls, k, Fatal(max))
  }

  // --- the retained entry and its miss counter -----------------------------------------------------------

  datatype Cell = Cell(e: Entry, miss: nat)

  function Next(c: Option<Cell>, look: Look, max: int): Option<Cell> {
    match look
    case Seen(e) => Some(Cell(e, 0))
    case Dropped => None
    case Paused => if c.None? then None else Some(Cell(c.value.e, 0))
    case Missed => if c.None? || c.value.miss + 1 > max then None else Some(Cell(c.value.e, c.value.miss + 1))
  }

  function Fold(ls: seq<Look>, max: int): Option<Cell> {
    if ls == [] then None else Next(Fold(ls[..|ls| - 1], max), ls[|ls| - 1], max)
  }

  /** The misses in a row at the end. */
  function Trailing(ls: seq<Look>): (n: nat)
    ensures n <= |ls| && Misses(ls, |ls| - n, n)
    ensures n < |ls| ==> ls[|ls| - n - 1] != Missed
  {
    if ls == [] || ls[|ls| - 1] != Missed then 0 else 1 + Trailing(ls[..|ls| - 1])
  }

  lemma TrailingIff(ls: seq<Look>, n: nat)
    requires n <= |ls|
    ensures Misses(ls, |ls| - n, n) <==> n <= Trailing(ls)
  {
    var t := Trailing(ls);
    assert n > t ==> ls[|ls| - t - 1] != Missed;
  }

  lemma MissesNext(ls: seq<Look>, i: nat, n: nat)
    requires ls != [] && i + n < |ls|
    ensures Misses(ls, i, n) <==> Misses(ls[..|ls| - 1], i, n)
  {
    var us := ls[..|ls| - 1];
    assert forall t :: 0 <= t < |us| ==> us[t] == ls[t];
  }

  /** The last look completes a run of misses only as the end of the run. */
  lemma RunNext(ls: seq<Look>, k: nat, n: nat)
    requires k < |ls| - 1
    ensures RunOfMisses(ls, k, n) <==> RunOfMisses(ls[..|ls| - 1], k, n) || (k + n < |ls| && n <= Trailing(ls))
  {
    var us := ls[..|ls| - 1];
    if RunOfMisses(ls, k, n) {
      var i: nat :| k < i && Misses(ls, i, n);
      if i + n < |ls| {
        MissesNext(ls, i, n);
      } else {
        TrailingIff(ls, n);
      }
    }
    if RunOfMisses(us, k, n) {
      var i: nat :| k < i && Misses(us, i, n);
      MissesNext(ls, i, n);
    }
    if k + n < |ls| && n <= Trailing(ls) {
      TrailingIff(ls, n);
    }
  }

  lemma SightingNext(ls: seq<Look>, k: nat)
    requires k < |ls|
    ensures var l := ls[|ls| - 1];
            if k == |ls| - 1 then LatestSighting(ls, k) <==> l.Seen?
            else LatestSighting(ls, k) <==> LatestSighting(ls[..|ls| - 1], k) && !l.Seen? && l != Dropped
  {
    var us := ls[..|ls| - 1];
    assert forall t :: 0 <= t < |us| ==> us[t] == ls[t];
  }

  lemma SightingBoundsTrailing(ls: seq<Look>, k: nat)
    requires LatestSighting(ls, k)
    ensures k + Trailing(ls) < |ls|
  {
  }

  /** What the cell says about the history, given the latest sighting. */
  ghost predicate CellIs(ls: seq<Look>, k: nat, max: int, c: Option<Cell>) {
    LatestSighting(ls, k) && c == if RunOfMisses(ls, k, Fatal(max)) then None else Some(Cell(ls[k].e, Trailing(ls)))
  }

  lemma CellNext(ls: seq<Look>, k: nat, max: int)
    requires ls != [] && LatestSighting(ls, k)
    requires k < |ls| - 1 ==> CellIs(ls[..|ls| - 1], k, max, Fold(ls[..|ls| - 1], max))
    ensures CellIs(ls, k, max, Fold(ls, max))
  {
    SightingBoundsTrailing(ls, k);
    if k < |ls| - 1 {
      RunNext(ls, k, Fatal(max));
      assert ls[..|ls| - 1][k] == ls[k];
      LongTrailIsARun(ls[..|ls| - 1], k, Fatal(max));
    }
  }

  lemma LongTrailIsARun(ls: seq<Look>, k: nat, n: nat)
    requires LatestSighting(ls, k)
    ensures n <= Trailing(ls) ==> RunOfMisses(ls, k, n)
  {
    SightingBoundsTrailing(ls, k);
    if n <= Trailing(ls) {
      TrailingIff(ls, n);
    }
  }

  ghost predicate Sighted(ls: seq<Look>) {
    exists k: nat :: LatestSighting(ls, k)
  }

  lemma {:induction false} FoldMeans(ls: seq<Look>, max: int)
    ensures if Sighted(ls) then exists k: nat :: CellIs(ls, k, max, Fold(ls, max)) else Fold(ls, max) == None
  {
    if ls != [] {
      var us := ls[..|ls| - 1];
      FoldMeans(us, max);
      if Sighted(ls) {
        var k: nat :| LatestSighting(ls, k);
        SightingNext(ls, k);
        if k < |ls| - 1 {
          var j: nat :| CellIs(us, j, max, Fold(us, max));
          assert j == k;
        }
        CellNext(ls, k, max);
      } else {
        NeverSighted(ls);
      }
    }
  }

  lemma NeverSighted(ls: seq<Look>)
    requires ls != [] && !Sighted(ls)
    ensures !ls[|ls| - 1].Seen? && (ls[|ls| - 1] == Dropped || !Sighted(ls[..|ls| - 1]))
  {
    SightingNext(ls, |ls| - 1);
    if Sighted(ls[..|ls| - 1]) {
      var k: nat :| LatestSighting(ls[..|ls| - 1], k);
      SightingNext(ls, k);
    }
  }

  /** The loops' cell agrees with the specification over the whole history. */
  lemma RetainedIff(ls: seq<Look>, e: Entry, max: int)
    ensures Retained(ls, e, max) <==> Fold(ls, max).Some? && Fold(ls, max).value.e == e
  {
    FoldMeans(ls, max);
    if Sighted(ls) {
      var k: nat :| CellIs(ls, k, max, Fold(ls, max));
      assert forall j: nat :: LatestSighting(ls, j) ==> j == k;
    }
  }

  // --- the debouncer -----------------------------------------------------------------------------------

  function Shown(cell: Option<Cell>, paused: map<int, Option<Entry>>, x: int): Option<Entry> {
    var kept := if cell.None? then None else Some(cell.value.e);
    if x !in paused then kept
    else if paused[x].Some? then Some(Updating(paused[x].value))
    else if kept.Some? then Some(Updating(kept.value)) else None
  }

  /** A slot is shown if and only if it is retained or is paused with a snapshot; and how. */
  lemma ShownIff(ls: seq<Look>, max: int, paused: map<int, Option<Entry>>, x: int, e: Entry)
    ensures Shown(Fold(ls, max), paused, x) == Some(e) <==>
              if x !in paused then Retained(ls, e, max)
              else if paused[x].Some? then e == Updating(paused[x].value)
              else exists kept :: Retained(ls, kept, max) && e == Updating(kept)
  {
    RetainedIff(ls, e, max);
    if Fold(ls, max).Some? {
      RetainedIff(ls, Fold(ls, max).value.e, max);
    }
    forall kept
      ensures Retained(ls, kept, max) <==> Fold(ls, max).Some? && Fold(ls, max).value.e == kept
    {
      RetainedIff(ls, kept, max);
    }
  }

  /** The entries found outside the paused slots; a later entry of a slot replaces an earlier one. */
  method Present(found: seq<Entry>, paused: map<int, Option<Entry>>) returns (present: map<int, Entry>)
    ensures forall x :: x in present <==> x !in paused && Found(found, x).Some?
    ensures forall x :: x in present ==> present[x] == Found(found, x).value
  {
    present := map[];
    for i := 0 to |found|
      invariant forall x :: x in present <==> x !in paused && Found(found[..i], x).Some?
      invariant forall x :: x in present ==> present[x] == Found(found[..i], x).value
    {
      assert found[..i + 1][..i] == found[..i];
      if found[i].slot !in paused {
        present := present[found[i].slot := found[i]];
      }
    }
    assert found[..|found|] == found;
  }

  predicate Increasing(s: seq<int>) {
    forall i, j :: 0 <= i < j < |s| ==> s[i] < s[j]
  }

  method Sorted(keys: set<int>) returns (s: seq<int>)
    ensures Increasing(s) && forall x :: x in s <==> x in keys
  {
    s := [];
    var todo := keys;
    while todo != {}
      invariant todo <= keys && Increasing(s)
      invariant forall x :: x in s <==> x in keys && x !in todo
      invariant forall x, y :: x in s && y in todo ==> x < y
      decreases |todo|
    {
      var least := Least(todo);
      assert forall i :: 0 <= i < |s| ==> s[i] in s;
      s := s + [least];
      todo := todo - {least};
    }
  }

  method Least(keys: set<int>) returns (least: int)
    requires keys != {}
    ensures least in keys && forall x :: x in keys ==> least <= x
  {
    least := Sets.Pick(keys);
    var todo := keys - {least};
    while todo != {}
      invariant todo <= keys && least in keys
      invariant forall x :: x in keys && x !in todo ==> least <= x
      decreases |todo|
    {
      var x := Sets.Pick(todo);
      if x < least {
        least := x;
      }
      todo := todo - {x};
    }
  }

  class SlotInventoryDebouncer {
    const max: int
    var lastGood: map<int, Entry>
    var miss: map<int, nat>
    ghost var ops: seq<Op>

    ghost function CellAt(x: int): Option<Cell>
      reads this
    {
      if x in lastGood then Some(Cell(lastGood[x], if x in miss then miss[x] else 0)) else None
    }

    ghost predicate Valid()
      reads this
    {
      && (forall x :: x in miss ==> x in lastGood)
      && forall x :: CellAt(x) == Fold(Looks(ops, x), max)
    }

    constructor (max: int)
      ensures Valid() && ops == [] && this.max == max
    {
      this.max := max;
      lastGood := map[];
      miss := map[];
      ops := [];
    }

    method LastGood(x: int) returns (e: Option<Entry>)
      requires Valid()
      ensures forall entry :: e == Some(entry) <==> Retained(Looks(ops, x), entry, max)
    {
      e := if x in lastGood then Some(lastGood[x]) else None;
      forall entry
        ensures e == Some(entry) <==> Retained(Looks(ops, x), entry, max)
      {
        RetainedIff(Looks(ops, x), entry, max);
        assert CellAt(x) == Fold(Looks(ops, x), max);
      }
    }

    /** First loop: every slot found is retained with its new entry. */
    method Retain(present: map<int, Entry>)
      requires forall x :: x in miss ==> x in lastGood
      modifies `lastGood, `miss
      ensures forall x :: x in miss ==> x in lastGood
      ensures forall x :: CellAt(x) == if x in present then Some(Cell(present[x], 0)) else old(CellAt(x))
    {
      var todo := present.Keys;
      while todo != {}
        invariant todo <= present.Keys && forall x :: x in miss ==> x in lastGood
        invariant forall x ::
                    CellAt(x) == if x in present && x !in todo then Some(Cell(present[x], 0)) else old(CellAt(x))
        decreases |todo|
      {
        var slot := Sets.Pick(todo);
        lastGood := lastGood[slot := present[slot]];
        miss := miss[slot := 0];
        todo := todo - {slot};
      }
    }

    /** Second loop: a slot not found counts a miss unless it is paused, and is dropped over the limit. */
    method Age(present: map<int, Entry>, paused: map<int, Option<Entry>>)
      requires forall x :: x in miss ==> x in lastGood
      modifies `lastGood, `miss
      ensures forall x :: x in miss ==> x in lastGood
      ensures forall x :: CellAt(x) == if x in present then old(CellAt(x))
                                       else Next(old(CellAt(x)), if x in paused then Paused else Missed, max)
    {
      var todo := lastGood.Keys;
      while todo != {}
        invariant (forall x :: x in miss ==> x in lastGood) && todo <= lastGood.Keys
        invariant forall x ::
                    CellAt(x) == if x in present || x in todo then old(CellAt(x))
                                 else Next(old(CellAt(x)), if x in paused then Paused else Missed, max)
        decreases |todo|
      {
        var slot := Sets.Pick(todo);
        todo := todo - {slot};
        if slot in present {
          continue;
        }
        if slot in paused {
          miss := miss[slot := 0];
          continue;
        }
        miss := miss[slot := (if slot in miss then miss[slot] else 0) + 1];
        if miss[slot] > max {
          lastGood := lastGood - {slot};
          miss := miss - {slot};
        }
      }
    }

    /** Third loop and the sort: what is reported, by slot. */
    method Report(paused: map<int, Option<Entry>>) returns (slots: seq<int>, entries: seq<Entry>)
      ensures Increasing(slots) && |slots| == |entries|
      ensures forall x :: x in slots <==> Shown(CellAt(x), paused, x).Some?
      ensures forall i :: 0 <= i < |slots| ==> Some(entries[i]) == Shown(CellAt(slots[i]), paused, slots[i])
    {
      var effective := lastGood;
      var todo := paused.Keys;
      while todo != {}
        invariant todo <= paused.Keys
        invariant forall x :: x in effective <==> if x in todo then x in lastGood else Shown(CellAt(x), paused, x).Some?
        invariant forall x :: x in effective ==>
                    effective[x] == if x in todo then lastGood[x] else Shown(CellAt(x), paused, x).value
        decreases |todo|
      {
        var slot := Sets.Pick(todo);
        todo := todo - {slot};
        var entry := if paused[slot].Some? then Some(Updating(paused[slot].value))
                     else if slot in lastGood then Some(Updating(lastGood[slot])) else None;
        if entry.Some? {
          effective := effective[slot := entry.value];
        }
      }
      slots := Sorted(effective.Keys);
      assert forall i :: 0 <= i < |slots| ==> slots[i] in slots;
      entries := seq(|slots|, i requires 0 <= i < |slots| => effective[slots[i]]);
    }

    method Absorb(found: seq<Entry>, paused: map<int, Option<Entry>>)
      requires Valid()
      modifies this
      ensures Valid() && ops == old(ops) + [Scan(found, paused)]
    {
      var present := Present(found, paused);
      Retain(present);
      Age(present, paused);
      ops := ops + [Scan(found, paused)];
      forall x
        ensures CellAt(x) == Fold(Looks(ops, x), max)
      {
        LooksNext(old(ops), Scan(found, paused), x, max);
        assert old(CellAt(x)) == Fold(Looks(old(ops), x), max);
      }
    }

    /** One scan: the history grows by it, and exactly the shown slots are reported, in order. */
    method Update(found: seq<Entry>, paused: map<int, Option<Entry>>) returns (slots: seq<int>, entries: seq<Entry>)
      requires Valid()
      modifies this
      ensures Valid() && ops == old(ops) + [Scan(found, paused)]
      ensures Increasing(slots) && |slots| == |entries|
      ensures forall x :: x in slots <==> Shown(Fold(Looks(ops, x), max), paused, x).Some?
      ensures forall i :: 0 <= i < |slots| ==>
                Some(entries[i]) == Shown(Fold(Looks(ops, slots[i]), max), paused, slots[i])
    {
      Absorb(found, paused);
      slots, entries := Report(paused);
    }

    method Forget(slot: int)
      requires Valid()
      modifies this
      ensures Valid() && ops == old(ops) + [Op.Forget(slot)]
    {
      lastGood := lastGood - {slot};
      miss := miss - {slot};
      ops := ops + [Op.Forget(slot)];
      forall x
        ensures CellAt(x) == Fold(Looks(ops, x), max)
      {
        LooksNext(old(ops), Op.Forget(slot), x, max);
        assert old(CellAt(x)) == Fold(Looks(old(ops), x), max);
      }
    }
  }

  lemma LooksNext(ops: seq<Op>, op: Op, x: int, max: int)
    ensures Fold(Looks(ops + [op], x), max) ==
              match LookAt(op, x)
              case None => Fold(Looks(ops, x), max)
              case Some(look) => Next(Fold(Looks(ops, x), max), look, max)
  {
    assert (ops + [op])[..|ops|] == ops;
    var look := LookAt(op, x);
    if look.Some? {
      var ls := Looks(ops, x) + [look.value];
      assert ls[..|ls| - 1] == Looks(ops, x);
    }
  }
}

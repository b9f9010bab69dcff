/**
  Audio demand counting: the table of subscriptions, its three atomic operations, and the start
  and stop signals they give over any serial order of calls.
 */
module Subscriptions {
  import opened Options
  import Sets

  /** One subscriber of one stream; the table holds no row twice. */
  datatype Row = Row(station: int, stream: string, channel: string)

  datatype Stream = Stream(station: int, id: string)

  function RowsOf(rows: set<Row>, s: Stream): set<Row> {
    set r | r in rows && r.station == s.station && r.stream == s.id
  }

  function Count(rows: set<Row>, s: Stream): nat {
    |RowsOf(rows, s)|
  }

  ghost predicate Demand(rows: set<Row>, s: Stream) {
    exists channel :: Row(s.station, s.id, channel) in rows
  }

  lemma CountIsZeroIff(rows: set<Row>, s: Stream)
    ensures Count(rows, s) == 0 <==> !Demand(rows, s)
  {
    if Demand(rows, s) {
      var channel :| Row(s.station, s.id, channel) in rows;
      assert Row(s.station, s.id, channel) in RowsOf(rows, s);
    } else {
      assert forall r :: r in RowsOf(rows, s) ==> Row(s.station, s.id, r.channel) in rows;
      assert RowsOf(rows, s) == {};
    }
  }

  // --- the operations ------------------------------------------------------------------------------

  class AudioDemand {
    var rows: set<Row>

    constructor ()
      ensures rows == {}
    {
      rows := {};
    }

    method Subscribe(s: Stream, channel: string) returns (first: bool, count: nat)
      modifies this
      ensures rows == Apply(old(rows), Sub(s, channel))
      ensures count == Count(rows, s)
      ensures first <==> Signal(old(rows), Sub(s, channel), s) == Some(true)
    {
      var row := Row(s.station, s.id, channel);
      var before := Count(rows, s);
      if row in rows {
        assert rows + {row} == rows;
        count := before;
      } else {
        assert RowsOf(rows + {row}, s) == RowsOf(rows, s) + {row};
        rows := rows + {row};
        count := before + 1;
      }
      first := before == 0 && count == 1;
    }

    method Unsubscribe(s: Stream, channel: string) returns (last: bool, count: nat)
      modifies this
      ensures rows == Apply(old(rows), Unsub(s, channel))
      ensures count == Count(rows, s)
      ensures last <==> Signal(old(rows), Unsub(s, channel), s) == Some(false)
    {
      var row := Row(s.station, s.id, channel);
      var deleted := if row in rows then 1 else 0;
      rows := rows - {row};
      count := Count(rows, s);
      last := deleted > 0 && count == 0;
    }

    /** The streams that lost their last subscriber, each once. */
    method DropChannel(station: int, channel: string) returns (zero: seq<string>)
      modifies this
      ensures rows == Apply(old(rows), Drop(station, channel))
      ensures forall id :: id in zero <==> Signal(old(rows), Drop(station, channel), Stream(station, id)) == Some(false)
      ensures forall i, j :: 0 <= i < j < |zero| ==> zero[i] != zero[j]
    {
      var ids := set r | r in rows && r.station == station && r.channel == channel :: r.stream;
      assert forall id :: id in ids <==> Row(station, id, channel) in rows by {
        forall id | Row(station, id, channel) in rows
          ensures id in ids
        {
          assert Row(station, id, channel).stream == id;
        }
      }
      rows := Without(rows, station, channel);
      zero := [];
      var todo := ids;
      while todo != {}
        invariant todo <= ids && rows == Without(old(rows), station, channel)
        invariant forall id :: id in zero <==> id in ids && id !in todo && Count(rows, Stream(station, id)) == 0
        invariant forall i, j :: 0 <= i < j < |zero| ==> zero[i] != zero[j]
        decreases |todo|
      {
        var id := Sets.Pick(todo);
        todo := todo - {id};
        assert forall i :: 0 <= i < |zero| ==> zero[i] in zero;
        if Count(rows, Stream(station, id)) == 0 {
          zero := zero + [id];
        }
      }
    }
  }

  function Without(rows: set<Row>, station: int, channel: string): set<Row> {
    set r | r in rows && !(r.station == station && r.channel == channel)
  }

  // --- what the operations do to one stream -------------------------------------------------------------

  datatype Op = Sub(s: Stream, channel: string) | Unsub(s: Stream, channel: string) | Drop(station: int, channel: string)

  function Apply(rows: set<Row>, op: Op): set<Row> {
    match op
    case Sub(s, channel) => rows + {Row(s.station, s.id, channel)}
    case Unsub(s, channel) => rows - {Row(s.station, s.id, channel)}
    case Drop(station, channel) => Without(rows, station, channel)
  }

  /** The signal an operation gives for a stream: start, stop or none. */
  function Signal(rows: set<Row>, op: Op, s: Stream): Option<bool> {
    match op
    case Sub(t, channel) =>
      if t == s && Row(s.station, s.id, channel) !in rows && Count(rows, s) == 0 then Some(true) else None
    case Unsub(t, channel) =>
      if t == s && Row(s.station, s.id, channel) in rows && Count(Apply(rows, op), s) == 0 then Some(false) else None
    case Drop(station, channel) =>
      if s.station == station && Row(station, s.id, channel) in rows && Count(Apply(rows, op), s) == 0
      then Some(false) else None
  }

  /** A signal is given exactly when the operation changes whether anyone listens. */
  lemma SignalIffChange(rows: set<Row>, op: Op, s: Stream)
    ensures var before, after := Demand(rows, s), Demand(Apply(rows, op), s);
            Signal(rows, op, s) == if before == after then None else Some(after)
  {
    CountIsZeroIff(rows, s);
    CountIsZeroIff(Apply(rows, op), s);
    DemandNext(rows, op, s);
  }

  lemma DemandNext(rows: set<Row>, op: Op, s: Stream)
    ensures match op
            case Sub(t, channel) => Demand(Apply(rows, op), s) <==> t == s || Demand(rows, s)
            case Unsub(t, channel) =>
              (Demand(Apply(rows, op), s) ==> Demand(rows, s))
              && (t != s || Row(s.station, s.id, channel) !in rows ==> Demand(Apply(rows, op), s) == Demand(rows, s))
            case Drop(station, channel) =>
              (Demand(Apply(rows, op), s) ==> Demand(rows, s))
              && (s.station != station || Row(s.station, s.id, channel) !in rows ==>
                    Demand(Apply(rows, op), s) == Demand(rows, s))
  {
    var next := Apply(rows, op);
    if op.Sub? && op.s == s {
      assert Row(s.station, s.id, op.channel) in next;
    }
    forall c
      ensures op.Sub? && Row(s.station, s.id, c) in rows ==> Row(s.station, s.id, c) in next
    {
    }
  }

  // --- any serial order of calls ---------------------------------------------------------------------------

  function ApplyAll(rows: set<Row>, ops: seq<Op>): set<Row> {
    if ops == [] then rows else Apply(ApplyAll(rows, ops[..|ops| - 1]), ops[|ops| - 1])
  }

  function Signals(rows: set<Row>, ops: seq<Op>, s: Stream): seq<bool> {
    if ops == [] then []
    else
      var prefix := ops[..|ops| - 1];
      var sig := Signal(ApplyAll(rows, prefix), ops[|ops| - 1], s);
      if sig.Some? then Signals(rows, prefix, s) + [sig.value] else Signals(rows, prefix, s)
  }

  /** Every signal is the opposite of the one before it, the first the opposite of `running`. */
  predicate Alternates(signals: seq<bool>, running: bool) {
    forall i :: 0 <= i < |signals| ==> Opposite(signals, running, i)
  }

  predicate Opposite(signals: seq<bool>, running: bool, i: nat)
    requires i < |signals|
  {
    signals[i] != if i == 0 then running else signals[i - 1]
  }

  /** Whether the agent produces the stream after obeying the signals. */
  function Obeyed(signals: seq<bool>, running: bool): bool {
    if signals == [] then running else signals[|signals| - 1]
  }

  lemma AlternatesNext(signals: seq<bool>, running: bool, b: bool)
    requires Alternates(signals, running) && b == !Obeyed(signals, running)
    ensures Alternates(signals + [b], running) && Obeyed(signals + [b], running) == b
  {
    var all := signals + [b];
    forall i | 0 <= i < |all|
      ensures Opposite(all, running, i)
    {
      assert i < |signals| ==> Opposite(signals, running, i);
    }
  }

  /** Over any calls, start and stop alternate, and obeying them means producing what is in demand. */
  lemma {:induction false} SignalsTrackDemand(rows: set<Row>, ops: seq<Op>, s: Stream)
    ensures Alternates(Signals(rows, ops, s), Demand(rows, s))
    ensures Obeyed(Signals(rows, ops, s), Demand(rows, s)) == Demand(ApplyAll(rows, ops), s)
  {
    if ops != [] {
      var prefix := ops[..|ops| - 1];
      SignalsTrackDemand(rows, prefix, s);
      SignalIffChange(ApplyAll(rows, prefix), ops[|ops| - 1], s);
      var after := Demand(ApplyAll(rows, ops), s);
      if after != Demand(ApplyAll(rows, prefix), s) {
        AlternatesNext(Signals(rows, prefix, s), Demand(rows, s), after);
      }
    }
  }

  /** The operation subscribes this row, or ends it. */
  predicate Adds(op: Op, r: Row) {
    op == Sub(Stream(r.station, r.stream), r.channel)
  }

  predicate Ends(op: Op, r: Row) {
    op == Unsub(Stream(r.station, r.stream), r.channel) || op == Drop(r.station, r.channel)
  }

  /** Over any calls a row is in the table if and only if it was there or subscribed and nothing has ended it since. */
  lemma {:induction false} SubscribedIff(rows: set<Row>, ops: seq<Op>, r: Row)
    ensures r in ApplyAll(rows, ops) <==>
              || (r in rows && forall j :: 0 <= j < |ops| ==> !Ends(ops[j], r))
              || (exists k :: 0 <= k < |ops| && Adds(ops[k], r) && forall j :: k < j < |ops| ==> !Ends(ops[j], r))
  {
    if ops != [] {
      var n := |ops| - 1;
      SubscribedIff(rows, ops[..n], r);
      assert forall j :: 0 <= j < n ==> ops[..n][j] == ops[j];
      if Adds(ops[n], r) {
        assert ops[n] == ops[|ops| - 1];
      }
    }
  }
}

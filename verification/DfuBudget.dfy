/**
  The DFU backend's download loop and its recovery after a crash, with the retry budget that the
  crash marker carries across restarts.

  `points` records what is on disk, and what has gone over the wire, after every save and before
  and after every download: a crash leaves one of them behind.  What each download and each save comes
  to is told by `DfuBackend.answer` and `DfuBackend.saved`.
 */
module DfuBudget {
  import opened Options
  import opened Digests

  const DFU_MAX_RETRIES := 2

  datatype Outcome = Ok | Rejected | Transient | DfuStuck | Raised

  /** The marker fields recovery depends on. */
  datatype Marker = Marker(attempts: int, path: string, checksum: string)

  /** One `dfu-util -D` run. */
  datatype Download = Download(path: string, image: Option<Bytes>, recovery: bool)

  datatype World = World(marker: Marker, sent: seq<Download>, flashed: bool)

  /** What the rest of the system supplies: image files, their real directory, the digest. */
  datatype Host = Host(
    files: map<string, Bytes>,
    dirOf: string -> string,
    fwDir: string,
    sha: Bytes -> string
  )

  /** `path_in_dir`: directly inside, after resolving links. */
  predicate InFirmwareDir(h: Host, path: string) {
    path != "" && h.dirOf(path) == h.fwDir
  }

  predicate ImageMatches(h: Host, path: string, checksum: string) {
    checksum != "" && path in h.files && h.sha(h.files[path]) == Lower(checksum)
  }

  /** One download per spent retry, plus the one a flash starts with. */
  ghost predicate InBudget(w: World) {
    && 0 <= w.marker.attempts <= DFU_MAX_RETRIES
    && |w.sent| <= w.marker.attempts + if w.flashed then 1 else 0
  }

  /** Recovery only ever sends the marker's verified image from the firmware directory. */
  ghost predicate OnlyVerified(w: World, h: Host) {
    forall i :: 0 <= i < |w.sent| && w.sent[i].recovery ==>
                  && w.sent[i].path == w.marker.path
                  && InFirmwareDir(h, w.sent[i].path)
                  && w.sent[i].image.Some? && h.sha(w.sent[i].image.value) == Lower(w.marker.checksum)
  }

  function ImageAt(h: Host, path: string): Option<Bytes> {
    if path in h.files then Some(h.files[path]) else None
  }

  /** Every download is of the marker's file as it is on disk. */
  ghost predicate OnlyMarked(w: World, h: Host) {
    forall i :: 0 <= i < |w.sent| ==> w.sent[i].path == w.marker.path && w.sent[i].image == ImageAt(h, w.marker.path)
  }

  ghost predicate Fine(w: World, h: Host) {
    InBudget(w) && OnlyVerified(w, h) && OnlyMarked(w, h)
  }

  /** What one download came to: the exit code, a rejection in the output, the module still in DFU mode. */
  datatype Reply = Reply(rc: int, rejected: bool, inDfu: bool)

  /** Only a failed download that was not rejected and left the module in DFU mode is tried again. */
  predicate Stuck(r: Reply) {
    r.rc != 0 && !r.rejected && r.inDfu
  }

  predicate AllStuck(replies: seq<Reply>) {
    forall i :: 0 <= i < |replies| ==> Stuck(replies[i])
  }

  /** The download with this reply ends the loop with `o`. */
  predicate Ends(o: Outcome, r: Reply) {
    match o
    case Ok => r.rc == 0
    case Rejected => r.rc != 0 && r.rejected
    case Transient => r.rc != 0 && !r.rejected && !r.inDfu
    case _ => false
  }

  predicate Explains(o: Outcome, replies: seq<Reply>) {
    if o.DfuStuck? || o.Raised? then AllStuck(replies)
    else replies != [] && AllStuck(replies[..|replies| - 1]) && Ends(o, replies[|replies| - 1])
  }

  lemma StuckAgain(replies: seq<Reply>, r: Reply)
    requires AllStuck(replies) && Stuck(r)
    ensures AllStuck(replies + [r])
  {
  }

  lemma LastExplains(o: Outcome, replies: seq<Reply>, r: Reply)
    requires AllStuck(replies) && Ends(o, r)
    ensures Explains(o, replies + [r])
  {
    assert (replies + [r])[..|replies|] == replies;
  }

  class DfuBackend {
    const host: Host
    const answer: nat -> Reply  // what the download with this number comes to
    const saved: nat -> bool    // whether the save with this number works
    var downloads: nat
    var saves: nat
    var lost: nat               // saves that did not work
    var world: World
    var points: seq<World>

    ghost predicate Valid()
      reads this
    {
      Fine(world, host) && world in points && forall w :: w in points ==> Fine(w, host)
    }

    /** A fresh marker, persisted before the flash starts. */
    constructor (host: Host, path: string, checksum: string, answer: nat -> Reply, saved: nat -> bool)
      ensures Valid() && world == World(Marker(0, path, checksum), [], false) && this.host == host
      ensures this.answer == answer && this.saved == saved && downloads == saves == lost == 0
    {
      this.host, this.answer, this.saved, downloads, saves, lost := host, answer, saved, 0, 0, 0;
      world := World(Marker(0, path, checksum), [], false);
      points := [World(Marker(0, path, checksum), [], false)];
    }

    /** The replies are the answers from the download with number `from` on. */
    ghost predicate Answers(replies: seq<Reply>, from: nat) {
      forall i :: 0 <= i < |replies| ==> replies[i] == answer(from + i)
    }

    method Record(w: World)
      requires Valid() && Fine(w, host)
      modifies this`world, this`points
      ensures Valid() && world == w
    {
      world := w;
      points := points + [w];
      assert points[|points| - 1] == w;
    }

    /** Persists one more spent retry; an I/O error leaves the old marker in place. */
    method SpendRetry() returns (ok: bool)
      requires Valid() && world.marker.attempts < DFU_MAX_RETRIES
      modifies this`world, this`points, this`saves, this`lost
      ensures Valid() && ok == saved(old(saves)) && saves == old(saves) + 1 && lost == old(lost) + if ok then 0 else 1
      ensures world == if ok then old(world).(marker := old(world).marker.(attempts := old(world).marker.attempts + 1))
                       else old(world)
    {
      ok := saved(saves);
      saves, lost := saves + 1, lost + if ok then 0 else 1;
      if ok {
        Record(world.(marker := world.marker.(attempts := world.marker.attempts + 1)));
      }
    }

    /** `dfu-util -D`; it may have reached the device even if the agent dies in it. */
    method Send(recovery: bool) returns (reply: Reply)
      requires Valid()
      requires |world.sent| < world.marker.attempts + if world.flashed then 1 else 0
      requires recovery ==> InFirmwareDir(host, world.marker.path)
                            && ImageMatches(host, world.marker.path, world.marker.checksum)
      modifies this`world, this`points, this`downloads
      ensures Valid() && world == old(world).(sent := world.sent) && |world.sent| == |old(world.sent)| + 1
      ensures reply == answer(old(downloads)) && downloads == old(downloads) + 1
    {
      var path := world.marker.path;
      Record(world.(sent := world.sent + [Download(path, ImageAt(host, path), recovery)]));
      reply := answer(downloads);
      downloads := downloads + 1;
    }

    /** Takes one retry from the budget, or says why the loop ends instead. */
    method Spend() returns (end: Option<Outcome>)
      requires Valid()
      modifies this`world, this`points, this`saves, this`lost
      ensures Valid()
      ensures end.Some? ==> world == old(world) && (end.value.DfuStuck? || end.value.Raised?)
      ensures end == Some(DfuStuck) <==> old(world).marker.attempts == DFU_MAX_RETRIES
      ensures lost == old(lost) + if end == Some(Raised) then 1 else 0
      ensures end.None? ==>
                && world.marker.attempts <= DFU_MAX_RETRIES
                && world == old(world).(marker := old(world).marker.(attempts := old(world).marker.attempts + 1))
    {
      if world.marker.attempts >= DFU_MAX_RETRIES {
        return Some(DfuStuck);
      }
      var saved := SpendRetry();
      return if saved then None else Some(Raised);
    }

    /** Sends the image once and tells from the reply whether that ends the loop. */
    method Round(retry: bool, recovery: bool) returns (end: Option<Outcome>, reply: Option<Reply>)
      requires Valid()
      requires !retry ==> |world.sent| < world.marker.attempts + if world.flashed then 1 else 0
      requires recovery ==> InFirmwareDir(host, world.marker.path)
                            && ImageMatches(host, world.marker.path, world.marker.checksum)
      modifies this
      ensures Valid() && world.flashed == old(world.flashed)
      ensures reply.None? <==> retry && (old(world).marker.attempts == DFU_MAX_RETRIES || lost > old(lost))
      ensures reply.None? ==> downloads == old(downloads) && (end == Some(Raised) <==> lost > old(lost))
      ensures reply.None? ==> retry && world == old(world) && end.Some? && (end.value.DfuStuck? || end.value.Raised?)
      ensures reply.None? && end.value.DfuStuck? ==> world.marker.attempts == DFU_MAX_RETRIES
      ensures reply.Some? ==>
                && reply.value == answer(old(downloads)) && downloads == old(downloads) + 1 && lost == old(lost)
                && |world.sent| == |old(world.sent)| + 1
                && world.marker == old(world.marker).(attempts := old(world.marker).attempts + if retry then 1 else 0)
                && if end.Some? then Ends(end.value, reply.value) else Stuck(reply.value)
    {
      if retry {
        end := Spend();
        if end.Some? {
          return end, None;
        }
      }
      var r := Send(recovery);
      if r.rc == 0 {
        return Some(Ok), Some(r);
      }
      if r.rejected {
        return Some(Rejected), Some(r);
      }
      return if r.inDfu then None else Some(Transient), Some(r);
    }

    /** Every outcome is told by the replies; the budget counts every download but a flash's first. */
    method DownloadLoop(firstIsRetry: bool) returns (o: Outcome, replies: seq<Reply>)
      requires Valid()
      requires !firstIsRetry ==> world.flashed && |world.sent| < world.marker.attempts + 1
      requires firstIsRetry ==> InFirmwareDir(host, world.marker.path)
                                && ImageMatches(host, world.marker.path, world.marker.checksum)
      modifies this
      ensures Valid() && world.flashed == old(world.flashed) && Explains(o, replies)
      ensures |world.sent| == |old(world.sent)| + |replies| && (!firstIsRetry ==> replies != [])
      ensures world.marker == old(world.marker).(attempts := world.marker.attempts)
      ensures world.marker.attempts == old(world.marker).attempts + |replies| - if firstIsRetry then 0 else 1
      ensures o.DfuStuck? ==> world.marker.attempts == DFU_MAX_RETRIES
      ensures Answers(replies, old(downloads)) && downloads == old(downloads) + |replies|
      ensures o.Raised? <==> lost > old(lost)
    {
      var retry := firstIsRetry;
      replies := [];
      while true
        invariant Valid() && world.flashed == old(world.flashed)
        invariant world.marker == old(world.marker).(attempts := world.marker.attempts)
        invariant !retry ==> world == old(world) && retry == firstIsRetry && replies == []
        invariant |world.sent| == |old(world.sent)| + |replies| && AllStuck(replies)
        invariant retry && !firstIsRetry ==> replies != []
        invariant Answers(replies, old(downloads)) && downloads == old(downloads) + |replies| && lost == old(lost)
        invariant retry ==>
                    world.marker.attempts == old(world.marker).attempts + |replies| - if firstIsRetry then 0 else 1
        decreases DFU_MAX_RETRIES - world.marker.attempts + if retry then 0 else 1
      {
        var end, reply := Round(retry, firstIsRetry);
        if reply.None? {
          return end.value, replies;
        }
        if end.Some? {
          LastExplains(end.value, replies, reply.value);
          return end.value, replies + [reply.value];
        }
        StuckAgain(replies, reply.value);
        replies := replies + [reply.value];
        retry := true;
      }
    }

    /**
      The one flash of this marker: its first download is not a retry.  Without port, module or line
      it sends nothing; else the replies tell the outcome, and stuck means the whole budget went.
     */
    method Flash(port: bool, inSlot: bool, lineFree: bool) returns (o: Outcome, replies: seq<Reply>)
      requires Valid() && !world.flashed
      modifies this
      ensures Valid() && |world.sent| == |old(world.sent)| + |replies|
      ensures !port || !inSlot || !lineFree ==> o.Transient? && world == old(world)
      ensures port && inSlot && lineFree ==>
                && world.flashed && replies != [] && Explains(o, replies)
                && Answers(replies, old(downloads)) && (o.Raised? <==> lost > old(lost))
      ensures o.DfuStuck? ==> |replies| == 1 + DFU_MAX_RETRIES - old(world.marker).attempts
    {
      if !port || !inSlot || !lineFree {
        return Transient, [];
      }
      Record(world.(flashed := true));
      o, replies := DownloadLoop(false);
    }

    /**
      `None`: nothing to do here, the verify poll decides.  A module stuck in DFU mode gets the marker's
      image if that is verified, and else the answer stuck.
     */
    method Recover(port: bool, inDfu: bool) returns (r: Option<Outcome>, replies: seq<Reply>)
      requires Valid()
      modifies this
      ensures Valid() && world.flashed == old(world.flashed)
      ensures old(world.marker).path == "" || old(world.marker).checksum == "" ==> world == old(world)
      ensures var m := old(world.marker);
              var verified := InFirmwareDir(host, m.path) && ImageMatches(host, m.path, m.checksum);
              if !port || !inDfu then r == None && world == old(world)
              else if !verified then r == Some(DfuStuck) && world == old(world)
              else
                && Answers(replies, old(downloads)) && |world.sent| == |old(world.sent)| + |replies|
                && Explains(if r.None? then Ok else r.value, replies) && r != Some(Ok)
                && (r == Some(Raised) <==> lost > old(lost))
                && (r == Some(DfuStuck) ==> world.marker.attempts == DFU_MAX_RETRIES)
    {
      replies := [];
      if !port || !inDfu {
        return None, replies;
      }
      var marker := world.marker;
      if !InFirmwareDir(host, marker.path) || !ImageMatches(host, marker.path, marker.checksum) {
        return Some(DfuStuck), replies;
      }
      var o;
      o, replies := DownloadLoop(true);
      r := if o.Ok? then None else Some(o);
    }

    /**
      One flash and any number of restarts, each after a crash at any point: the downloads of this
      marker never exceed one plus the retries.
     */
    method Lifetime(restarts: nat)
      requires Valid() && !world.flashed
      modifies this
      ensures Valid() && |world.sent| <= 1 + DFU_MAX_RETRIES
      ensures forall w :: w in points ==> |w.sent| <= 1 + DFU_MAX_RETRIES
    {
      var mark: nat := |points|;
      var port, inSlot, free, inDfu: bool := *, *, *, *;
      var o, replies := Flash(port, inSlot, free);
      for k := 0 to restarts
        invariant Valid()
      {
        // Where the last call died, if it did.
        var i: int := *;
        if mark <= i < |points| {
          world := points[i];
        }
        mark := |points|;
        port, inDfu := *, *;
        var r, again := Recover(port, inDfu);
      }
    }
  }
}

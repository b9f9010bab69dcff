/**
  The sim backend's binary swap over an inode-level directory: flash steps 1-5, rollback R1-R3 and
  the acceptance of a verified flash, with a failure or a crash possible at every operation.

  A crash keeps a prefix of the operations, which goes at least up to the last directory sync that
  succeeded.  `SimBackend.trail` records the directory at that sync and after each operation since, so
  what holds of all of it holds of everything a restarted agent can find.

  Which operations succeed is told by `SimBackend.luck`, one answer for each operation tried, so every
  contract speaks of every way in which operations can fail.
 */
module SimSwap {
  import opened Options
  import opened Digests

  datatype Name = Live | New | Prev | Rb | Pending

  /** Directory entries and file contents; several names may share an inode. */
  datatype Fs = Fs(dir: map<Name, nat>, data: map<nat, Bytes>, next: nat)

  predicate WellFormed(fs: Fs) {
    && (forall n :: n in fs.dir ==> fs.dir[n] in fs.data)
    && (forall i :: i in fs.data ==> i < fs.next)
  }

  function Content(fs: Fs, n: Name): Option<Bytes> {
    if n in fs.dir && fs.dir[n] in fs.data then Some(fs.data[fs.dir[n]]) else None
  }

  // --- directory operations -----------------------------------------------------------------

  /** `unlink`, or nothing if the name is absent (`_rm_f`). */
  function Unlink(fs: Fs, n: Name): Fs {
    fs.(dir := fs.dir - {n})
  }

  function Link(fs: Fs, src: Name, dst: Name): Fs
    requires src in fs.dir
  {
    fs.(dir := fs.dir[dst := fs.dir[src]])
  }

  /** POSIX rename: a no-op that keeps both names when they are links to one inode. */
  function Rename(fs: Fs, src: Name, dst: Name): Fs
    requires src in fs.dir && src != dst
  {
    if dst in fs.dir && fs.dir[dst] == fs.dir[src] then fs
    else fs.(dir := fs.dir[dst := fs.dir[src]] - {src})
  }

  /** A new empty file with an inode of its own. */
  function Create(fs: Fs, n: Name): Fs {
    Fs(fs.dir[n := fs.next], fs.data[fs.next := []], fs.next + 1)
  }

  /** Writing goes to the inode, so every link sees it. */
  function Append(fs: Fs, n: Name, chunk: Bytes): Fs
    requires n in fs.dir && fs.dir[n] in fs.data
  {
    fs.(data := fs.data[fs.dir[n] := fs.data[fs.dir[n]] + chunk])
  }

  lemma RenameMoves(fs: Fs, src: Name, dst: Name)
    requires WellFormed(fs) && src in fs.dir && src != dst
    ensures WellFormed(Rename(fs, src, dst))
    ensures Content(Rename(fs, src, dst), dst) == Content(fs, src)
    ensures forall n :: n != src && n != dst ==> Content(Rename(fs, src, dst), n) == Content(fs, n)
  {
  }

  // --- what a crash may find -----------------------------------------------------------------

  /**
    The disk together with what has been promised about it: the last accepted binary (if any) and
    the digests the server pinned so far.
   */
  datatype Disk = Disk(fs: Fs, accepted: Option<Bytes>, pins: set<string>)

  /**
    `pending` present: `.prev` is the last accepted binary, or absent if that is.  `pending`
    absent: the live file is.  The live file is never anything but that or a pinned image.
   */
  ghost predicate Sound(d: Disk, sha: Bytes -> string) {
    && WellFormed(d.fs)
    && (Pending in d.fs.dir ==> Content(d.fs, Prev) == d.accepted)
    && (Pending !in d.fs.dir ==> Content(d.fs, Live) == d.accepted)
    && (Content(d.fs, Live).Some? ==>
          Content(d.fs, Live) == d.accepted || sha(Content(d.fs, Live).value) in d.pins)
  }

  /** The leftovers can go at any time, and `pending` once the accepted binary is live. */
  lemma UnlinkKeepsSound(d: Disk, n: Name, sha: Bytes -> string)
    requires Sound(d, sha) && (n == New || n == Rb || (n == Pending && Content(d.fs, Live) == d.accepted))
    ensures Sound(d.(fs := Unlink(d.fs, n)), sha) && Content(Unlink(d.fs, n), Live) == Content(d.fs, Live)
  {
  }

  /**
    Without `pending` the `.prev` of an earlier flash may be stale, so R1 would put the wrong
    binary live: every caller of the rollback looks for `pending` first.
   */
  lemma StalePrevExample(sha: Bytes -> string) returns (d: Disk)
    ensures Sound(d, sha) && Pending !in d.fs.dir && Prev in d.fs.dir
    ensures var linked := Link(Unlink(d.fs, Rb), Prev, Rb);
            Content(Rename(linked, Rb, Live), Live) != d.accepted
  {
    d := Disk(Fs(map[Live := 0, Prev := 1], map[0 := [1], 1 := []], 2), Some([1]), {});
    var linked := Link(Unlink(d.fs, Rb), Prev, Rb);
    RenameMoves(linked, Rb, Live);
    assert Content(linked, Rb) == Some([]);
  }

  /** The file shares its inode with no other name. */
  ghost predicate Alone(fs: Fs, n: Name) {
    n in fs.dir && forall m :: m in fs.dir && m != n ==> fs.dir[m] != fs.dir[n]
  }

  lemma CreateKeepsSound(d: Disk, sha: Bytes -> string)
    requires Sound(d, sha) && Pending !in d.fs.dir
    ensures var fs' := Create(d.fs, New);
            Sound(d.(fs := fs'), sha) && Alone(fs', New) && Pending !in fs'.dir && Content(fs', New) == Some([])
  {
    var fs' := Create(d.fs, New);
    assert forall n :: n != New ==> Content(fs', n) == Content(d.fs, n);
  }

  lemma AppendKeepsSound(d: Disk, chunk: Bytes, sha: Bytes -> string)
    requires Sound(d, sha) && Pending !in d.fs.dir && Alone(d.fs, New)
    ensures var fs' := Append(d.fs, New, chunk);
            && Sound(d.(fs := fs'), sha) && Alone(fs', New) && Pending !in fs'.dir
            && Content(fs', New) == Some(Content(d.fs, New).value + chunk)
  {
    var fs' := Append(d.fs, New, chunk);
    assert forall n :: n != New ==> Content(fs', n) == Content(d.fs, n);
  }

  // --- how far a rollback gets ----------------------------------------------------------------

  /** The operation a rollback failed at, in order; R1 has two forms. */
  datatype RollbackStep =
    | ClearRb | RelinkPrev | ReplaceLive   // R1 with a `.prev`
    | RemoveLive                           // R1 without
    | SyncLive
    | Restart                              // R2
    | DropNew | DropRb | DropPending       // R3
    | SyncEnd
    | Finished

  predicate InR3(at: RollbackStep) {
    at.DropNew? || at.DropRb? || at.DropPending? || at.SyncEnd? || at.Finished?
  }

  /** R1 done. */
  function Restored(fs: Fs): Fs {
    if Prev in fs.dir then Rename(Link(Unlink(fs, Rb), Prev, Rb), Rb, Live) else Unlink(fs, Live)
  }

  /** R3 as far as `at`. */
  function CleanedTo(fs: Fs, at: RollbackStep): Fs {
    match at
    case DropRb => Unlink(fs, New)
    case DropPending => Unlink(Unlink(fs, New), Rb)
    case SyncEnd => Unlink(Unlink(Unlink(fs, New), Rb), Pending)
    case Finished => Unlink(Unlink(Unlink(fs, New), Rb), Pending)
    case _ => fs
  }

  /** The directory that a rollback from `fs` leaves when it fails at `at`. */
  function RolledTo(fs: Fs, at: RollbackStep): Fs {
    match at
    case ClearRb => fs
    case RelinkPrev => Unlink(fs, Rb)
    case ReplaceLive => if Prev in fs.dir then Link(Unlink(fs, Rb), Prev, Rb) else fs
    case RemoveLive => fs
    case _ => CleanedTo(Restored(fs), at)
  }

  /** Every step of R1 keeps the disk sound, and the last makes the accepted binary live. */
  lemma RestoreKeepsSound(d: Disk, sha: Bytes -> string)
    requires Sound(d, sha) && Pending in d.fs.dir
    ensures Sound(d.(fs := RolledTo(d.fs, RelinkPrev)), sha) && Sound(d.(fs := RolledTo(d.fs, ReplaceLive)), sha)
    ensures Sound(d.(fs := Restored(d.fs)), sha) && Pending in Restored(d.fs).dir
    ensures Content(Restored(d.fs), Live) == d.accepted
  {
    if Prev in d.fs.dir {
      RenameMoves(Link(Unlink(d.fs, Rb), Prev, Rb), Rb, Live);
    }
  }

  /** A rollback that answers False has kept `pending` if and only if it failed before its last sync. */
  lemma PendingKeptIff(fs: Fs, at: RollbackStep)
    requires Pending in fs.dir && !at.Finished?
    ensures Pending in RolledTo(fs, at).dir <==> !at.SyncEnd?
  {
  }

  /** With everything done but the last sync, `pending` is gone and the answer is still False. */
  lemma LastSyncExample() returns (fs: Fs)
    ensures WellFormed(fs) && Pending in fs.dir && Content(fs, Prev) == Some([1])
    ensures Pending !in RolledTo(fs, SyncEnd).dir && Content(RolledTo(fs, SyncEnd), Live) == Some([1])
  {
    fs := Fs(map[Live := 0, Prev := 1, Pending := 2], map[0 := [2], 1 := [1], 2 := []], 3);
    RenameMoves(Link(Unlink(fs, Rb), Prev, Rb), Rb, Live);
  }

  /** A directory and what was accepted when it was the current one. */
  datatype Point = Point(fs: Fs, accepted: Option<Bytes>)

  function Points(trail: seq<Fs>, accepted: Option<Bytes>): seq<Point> {
    seq(|trail|, i requires 0 <= i < |trail| => Point(trail[i], accepted))
  }

  datatype Outcome = Ok | Transient | RolledBack

  datatype Command =
    | DoFlash(inSlot: bool, image: seq<Bytes>, checksum: string)
    | DoAfterVerify(success: bool)
    | DoStartup

  function Flatten(image: seq<Bytes>): Bytes {
    if image == [] then [] else Flatten(image[..|image| - 1]) + image[|image| - 1]
  }

  lemma FlattenNext(image: seq<Bytes>, i: nat)
    requires i < |image|
    ensures Flatten(image[..i + 1]) == Flatten(image[..i]) + image[i]
  {
    assert image[..i + 1][..i] == image[..i];
  }

  class SimBackend {
    const sha: Bytes -> string
    const luck: nat -> bool  // whether the operation with this number succeeds
    var ops: nat             // operations tried so far
    ghost var fails: nat     // and how many of them failed
    var fs: Fs
    var accepted: Option<Bytes>
    var pins: set<string>
    var trail: seq<Fs>       // since the last sync, or since the last acceptance if that came later
    var lapsed: seq<Point>   // what the last sync still allows from before that acceptance

    function Now(): Disk
      reads this
    {
      Disk(fs, accepted, pins)
    }

    /** The disk is sound now and would be after a crash that loses any operations not yet synced. */
    ghost predicate Valid()
      reads this
    {
      && Sound(Now(), sha) && trail != [] && trail[|trail| - 1] == fs
      && (forall i :: 0 <= i < |trail| ==> Sound(Disk(trail[i], accepted, pins), sha))
      && (forall i :: 0 <= i < |lapsed| ==> Sound(Disk(lapsed[i].fs, lapsed[i].accepted, pins), sha))
    }

    /** A crash can take nothing back. */
    ghost predicate Durable()
      reads this
    {
      trail == [fs] && lapsed == []
    }

    /** The image is the pinned one. */
    predicate Matches(image: seq<Bytes>, checksum: string) {
      IsSha256(Lower(checksum)) && sha(Flatten(image)) == Lower(checksum)
    }

    /** What may be accepted after a crash. */
    ghost function Acceptable(): set<Option<Bytes>>
      reads this
    {
      {accepted} + set i | 0 <= i < |lapsed| :: lapsed[i].accepted
    }

    /** The image-baked harness is in use: no override, nothing pending. */
    constructor (sha: Bytes -> string, luck: nat -> bool)
      ensures Valid() && Durable() && accepted == None && fs == Fs(map[], map[], 0) && this.sha == sha
      ensures this.luck == luck && ops == 0
    {
      this.sha, this.luck, ops, fails := sha, luck, 0, 0;
      fs := Fs(map[], map[], 0);
      accepted, pins, trail, lapsed := None, {}, [Fs(map[], map[], 0)], [];
    }

    /** One directory operation: it happens, or it fails and leaves the directory alone. */
    method Try(fs': Fs) returns (ok: bool)
      requires Valid() && Sound(Disk(fs', accepted, pins), sha)
      modifies this`fs, this`trail, this`ops, this`fails
      ensures Valid() && fs == if ok then fs' else old(fs)
      ensures ok == luck(old(ops)) && ops == old(ops) + 1 && fails == old(fails) + if ok then 0 else 1
    {
      ok := luck(ops);
      ops, fails := ops + 1, fails + if ok then 0 else 1;
      if ok {
        fs := fs';
        trail := trail + [fs];
      }
    }

    /** An operation without effect on the directory: a file sync or `systemctl restart`. */
    method Attempt() returns (ok: bool)
      modifies this`ops, this`fails
      ensures ok == luck(old(ops)) && ops == old(ops) + 1 && fails == old(fails) + if ok then 0 else 1
    {
      ok := luck(ops);
      ops, fails := ops + 1, fails + if ok then 0 else 1;
    }

    /** `_fsync_dir`: from here on no crash takes back what was done. */
    method SyncDir() returns (ok: bool)
      requires Valid()
      modifies this`trail, this`lapsed, this`ops, this`fails
      ensures Valid() && if ok then Durable() else trail == old(trail) && lapsed == old(lapsed)
      ensures ok == luck(old(ops)) && ops == old(ops) + 1 && fails == old(fails) + if ok then 0 else 1
    {
      ok := luck(ops);
      ops, fails := ops + 1, fails + if ok then 0 else 1;
      if ok {
        trail, lapsed := [fs], [];
      }
    }

    // --- flash steps ------------------------------------------------------------------------

    /** Copies the image chunk by chunk into the staged file. */
    method CopyImage(image: seq<Bytes>) returns (ok: bool)
      requires Valid() && Pending !in fs.dir && Alone(fs, New) && Content(fs, New) == Some([])
      modifies this`fs, this`trail, this`ops, this`fails
      ensures Valid() && Pending !in fs.dir && New in fs.dir
      ensures old(fails) <= fails && (ok <==> fails == old(fails))
      ensures ok ==> Content(fs, New) == Some(Flatten(image))
    {
      for i := 0 to |image|
        invariant Valid() && Pending !in fs.dir && Alone(fs, New) && fails == old(fails)
        invariant Content(fs, New) == Some(Flatten(image[..i]))
      {
        AppendKeepsSound(Now(), image[i], sha);
        FlattenNext(image, i);
        ok := Try(Append(fs, New, image[i]));
        if !ok { return; }
      }
      assert image[..|image|] == image;
      ok := Attempt();
    }

    /** A new file with the image in it. */
    method Copied(image: seq<Bytes>) returns (ok: bool)
      requires Valid() && Pending !in fs.dir
      modifies this`fs, this`trail, this`ops, this`fails
      ensures Valid() && Pending !in fs.dir
      ensures old(fails) <= fails && (ok <==> fails == old(fails))
      ensures ok ==> New in fs.dir && Content(fs, New) == Some(Flatten(image))
    {
      CreateKeepsSound(Now(), sha);
      ok := Try(Create(fs, New));
      if ok {
        ok := CopyImage(image);
      }
    }

    /** Step 1.  `None` on an I/O error; otherwise whether the staged copy matches the pin. */
    method Stage(image: seq<Bytes>, checksum: string) returns (r: Option<bool>)
      requires Valid() && Pending !in fs.dir
      modifies this`fs, this`trail, this`ops, this`fails
      ensures Valid() && Pending !in fs.dir
      ensures old(fails) <= fails && (r.Some? <==> fails == old(fails))
      ensures r.Some? ==> (r.value <==> Matches(image, checksum))
      ensures r == Some(true) ==> New in fs.dir && Content(fs, New) == Some(Flatten(image))
      ensures r == Some(false) ==> New !in fs.dir
    {
      UnlinkKeepsSound(Now(), New, sha);
      var ok := Try(Unlink(fs, New));
      if !ok { return None; }
      var expected := Lower(checksum);
      if !IsSha256(expected) { return Some(false); }
      ok := Copied(image);
      if !ok { return None; }
      if sha(fs.data[fs.dir[New]]) != expected {
        UnlinkKeepsSound(Now(), New, sha);
        ok := Try(Unlink(fs, New));
        return if ok then Some(false) else None;
      }
      return Some(true);
    }

    /** Step 2: `.prev` becomes a link to the live override, or goes away with it. */
    method RefreshPrev() returns (ok: bool)
      requires Valid() && Pending !in fs.dir
      modifies this`fs, this`trail, this`ops, this`fails
      ensures Valid() && Pending !in fs.dir && Content(fs, New) == old(Content(fs, New))
      ensures ok ==> Content(fs, Prev) == accepted
      ensures old(fails) <= fails && (ok <==> fails == old(fails))
    {
      ok := Try(Unlink(fs, Prev));
      if ok && Live in fs.dir {
        ok := Try(Link(fs, Live, Prev));
      }
    }

    /** Step 3.  The entry may be there although the sync after it failed. */
    method TouchPending() returns (ok: bool)
      requires Valid() && Pending !in fs.dir && Content(fs, Prev) == accepted
      modifies this`fs, this`trail, this`lapsed, this`ops, this`fails
      ensures Valid() && (lapsed == old(lapsed) || lapsed == [])
      ensures Content(fs, New) == old(Content(fs, New)) && Content(fs, Live) == accepted
      ensures ok ==> Pending in fs.dir && Durable()
      ensures old(fails) <= fails && (ok <==> fails == old(fails))
    {
      ok := Try(Create(fs, Pending));
      if ok {
        ok := SyncDir();
      }
    }

    method CleanupBeforePending()
      requires Valid() && Content(fs, Live) == accepted
      modifies this`fs, this`trail, this`ops, this`fails
      ensures Valid() && Content(fs, Live) == accepted && old(fails) <= fails
      ensures fails == old(fails) ==> New !in fs.dir && Pending !in fs.dir
    {
      var ok := Try(Unlink(fs, New));
      ok := Try(Unlink(fs, Pending));
    }

    // --- rollback ---------------------------------------------------------------------------

    /** R1 with a `.prev`: a second link to it is renamed over the live file. */
    method Relink() returns (at: RollbackStep)
      requires Valid() && Pending in fs.dir && Prev in fs.dir
      modifies this`fs, this`trail, this`ops, this`fails
      ensures Valid() && Pending in fs.dir && fs == RolledTo(old(fs), at)
      ensures at.ClearRb? || at.RelinkPrev? || at.ReplaceLive? || at.SyncLive?
      ensures at.SyncLive? ==> Content(fs, Live) == accepted
      ensures old(fails) <= fails && (at.SyncLive? <==> fails == old(fails))
    {
      RestoreKeepsSound(Now(), sha);
      var ok := Try(Unlink(fs, Rb));
      if !ok { return ClearRb; }
      ok := Try(Link(fs, Prev, Rb));
      if !ok { return RelinkPrev; }
      ok := Try(Rename(fs, Rb, Live));
      return if ok then SyncLive else ReplaceLive;
    }

    /** R1: the live file becomes the accepted binary again. */
    method Restore() returns (at: RollbackStep)
      requires Valid() && Pending in fs.dir
      modifies this`fs, this`trail, this`lapsed, this`ops, this`fails
      ensures Valid() && Pending in fs.dir && (lapsed == old(lapsed) || lapsed == [])
      ensures !InR3(at) && fs == RolledTo(old(fs), at)
      ensures at.Restart? ==> Content(fs, Live) == accepted && Durable()
      ensures old(fails) <= fails && (at.Restart? <==> fails == old(fails))
    {
      if Prev in fs.dir {
        at := Relink();
      } else {
        RestoreKeepsSound(Now(), sha);
        var ok := Try(Unlink(fs, Live));
        at := if ok then SyncLive else RemoveLive;
      }
      if at.SyncLive? {
        var ok := SyncDir();
        at := if ok then Restart else SyncLive;
      }
    }

    /** R3 up to `pending`. */
    method DropLeftovers() returns (at: RollbackStep)
      requires Valid() && Pending in fs.dir && Content(fs, Live) == accepted
      modifies this`fs, this`trail, this`ops, this`fails
      ensures Valid() && Pending in fs.dir && Content(fs, Live) == accepted && fs == CleanedTo(old(fs), at)
      ensures at.DropNew? || at.DropRb? || at.DropPending?
      ensures old(fails) <= fails && (at.DropPending? <==> fails == old(fails))
    {
      UnlinkKeepsSound(Now(), New, sha);
      var ok := Try(Unlink(fs, New));
      if !ok { return DropNew; }
      UnlinkKeepsSound(Now(), Rb, sha);
      ok := Try(Unlink(fs, Rb));
      return if ok then DropPending else DropRb;
    }

    /** R3, with `pending` last. */
    method CleanUp() returns (at: RollbackStep)
      requires Valid() && Pending in fs.dir && Content(fs, Live) == accepted
      modifies this`fs, this`trail, this`lapsed, this`ops, this`fails
      ensures Valid() && Content(fs, Live) == accepted && fs == CleanedTo(old(fs), at)
      ensures InR3(at) && (lapsed == old(lapsed) || lapsed == []) && (at.Finished? ==> Durable())
      ensures old(fails) <= fails && (at.Finished? <==> fails == old(fails))
    {
      at := DropLeftovers();
      if !at.DropPending? { return; }
      UnlinkKeepsSound(Now(), Pending, sha);
      var ok := Try(Unlink(fs, Pending));
      if !ok { return DropPending; }
      ok := SyncDir();
      return if ok then Finished else SyncEnd;
    }

    /**
      Restores the accepted binary.  True only when it ran to completion; otherwise it can simply
      be run again, unless `at` is the last sync: exactly then `pending` is already gone.
     */
    method Rollback() returns (done: bool, at: RollbackStep)
      requires Valid() && Pending in fs.dir
      modifies this`fs, this`trail, this`lapsed, this`ops, this`fails
      ensures Valid() && fs == RolledTo(old(fs), at) && (done <==> at.Finished?)
      ensures lapsed == old(lapsed) || lapsed == []
      ensures done ==> Durable() && New !in fs.dir && Rb !in fs.dir && Pending !in fs.dir && Content(fs, Live) == accepted
      ensures !done ==> (Pending !in fs.dir <==> at.SyncEnd?)
      ensures !done && Pending !in fs.dir ==> Content(fs, Live) == accepted
      ensures old(fails) <= fails && (done <==> fails == old(fails))
    {
      at := Restore();
      if at.Restart? {
        var ok := Attempt();
        if ok {
          at := CleanUp();
        }
      }
      done := at.Finished?;
    }

    // --- backend protocol -------------------------------------------------------------------

    /** Steps 1-3 of a flash; false has the live override untouched. */
    method Prepare(image: seq<Bytes>, checksum: string) returns (ready: bool)
      requires Valid() && Pending !in fs.dir
      modifies this`fs, this`trail, this`lapsed, this`ops, this`fails
      ensures Valid() && Content(fs, Live) == accepted && (lapsed == old(lapsed) || lapsed == [])
      ensures old(fails) <= fails && (ready <==> fails == old(fails) && Matches(image, checksum))
      ensures ready ==> Pending in fs.dir && Content(fs, New) == Some(Flatten(image))
      ensures !ready && fails <= old(fails) + 1 ==> New !in fs.dir && Pending !in fs.dir
    {
      var staged := Stage(image, checksum);
      if staged.Some? && !staged.value { return false; }
      ready := staged.Some?;
      if ready {
        assert Content(fs, New).Some?;
        ready := RefreshPrev();
      }
      if ready {
        ready := TouchPending();
      }
      if !ready {
        CleanupBeforePending();
      }
    }

    /** Steps 4 and 5. */
    method Install() returns (ok: bool)
      requires Valid() && Pending in fs.dir && Content(fs, New).Some? && sha(Content(fs, New).value) in pins
      modifies this`fs, this`trail, this`lapsed, this`ops, this`fails
      ensures Valid() && Pending in fs.dir && (lapsed == old(lapsed) || lapsed == [])
      ensures ok ==> Durable() && Content(fs, Prev) == accepted && Content(fs, Live) == old(Content(fs, New))
      ensures old(fails) <= fails && (ok <==> fails == old(fails))
    {
      RenameMoves(fs, New, Live);
      ok := Try(Rename(fs, New, Live));
      if ok {
        ok := SyncDir();
      }
      if ok {
        ok := Attempt();
      }
    }

    /** Steps 4 and 5, or back to the accepted binary. */
    method InstallOrUndo() returns (o: Outcome, at: RollbackStep)
      requires Valid() && Pending in fs.dir && Content(fs, New).Some? && sha(Content(fs, New).value) in pins
      modifies this`fs, this`trail, this`lapsed, this`ops, this`fails
      ensures Valid() && (lapsed == old(lapsed) || lapsed == []) && !o.Transient?
      ensures old(fails) <= fails && (o.Ok? <==> fails == old(fails))
      ensures o.Ok? ==>
                && Durable() && Pending in fs.dir && Content(fs, Prev) == accepted
                && Content(fs, Live) == old(Content(fs, New))
      ensures o.RolledBack? && fails == old(fails) + 1 ==> at.Finished? && Durable()
      ensures o.RolledBack? ==>
                && (at.Finished? ==> Content(fs, Live) == accepted)
                && (Pending !in fs.dir <==> at.Finished? || at.SyncEnd?)
    {
      at := Finished;
      var ok := Install();
      if ok { return Ok, at; }
      var finished;
      finished, at := Rollback();
      return RolledBack, at;
    }

    /**
      With no operation failing it succeeds exactly for the module in its slot and the pinned image.  A
      failed install is rolled back, unless an operation of the rollback failed too.
     */
    method Flash(inSlot: bool, image: seq<Bytes>, checksum: string) returns (o: Outcome, at: RollbackStep)
      requires Valid()
      modifies this`fs, this`trail, this`lapsed, this`pins, this`ops, this`fails
      ensures Valid() && pins == old(pins) + {Lower(checksum)} && (lapsed == old(lapsed) || lapsed == [])
      ensures old(fails) <= fails && (o.Ok? <==> fails == old(fails) && inSlot && Matches(image, checksum))
      ensures o.Ok? ==>
                && Durable() && Pending in fs.dir && Content(fs, Prev) == accepted
                && Content(fs, Live) == Some(Flatten(image))
      ensures !inSlot ==> fs == old(fs)
      ensures o.Transient? && old(Pending !in fs.dir) ==> Content(fs, Live) == accepted
      ensures o.Transient? && inSlot && fails == old(fails) ==> Content(fs, Live) == accepted
      ensures o.Transient? && inSlot && old(Pending !in fs.dir) && fails <= old(fails) + 1 ==>
                New !in fs.dir && Pending !in fs.dir
      ensures o.RolledBack? && fails == old(fails) + 1 ==>
                at.Finished? && Durable() && Pending !in fs.dir && Content(fs, Live) == accepted
      ensures o.RolledBack? ==>
                && (at.Finished? ==> Pending !in fs.dir && Content(fs, Live) == accepted)
                && (Pending !in fs.dir <==> at.Finished? || at.SyncEnd?)
    {
      at := Finished;
      pins := pins + {Lower(checksum)};
      if !inSlot { return Transient, at; }
      if Pending in fs.dir {
        var finished;
        finished, at := Rollback();
        if !finished { return Transient, at; }
      }
      var ready := Prepare(image, checksum);
      if !ready { return Transient, at; }
      o, at := InstallOrUndo();
    }

    /**
      Step 7: acceptance is the removal of `pending` itself.  A crash can take it back until a
      directory sync succeeds, and the old binary is then accepted again.
     */
    method Accept() returns (removed: bool, durable: bool)
      requires Valid()
      modifies this
      ensures Valid() && pins == old(pins) && (durable ==> removed)
      ensures removed ==> Pending !in fs.dir && Content(fs, Live) == old(Content(fs, Live)) == accepted
      ensures !removed ==> unchanged(this`fs, this`accepted, this`trail, this`lapsed)
      ensures removed == luck(old(ops)) && (durable <==> fails == old(fails)) && old(fails) <= fails
      ensures durable <==> removed && Durable()
      ensures removed && !durable ==> lapsed == old(lapsed) + Points(old(trail), old(accepted))
      ensures Acceptable() <= old(Acceptable()) + {accepted}
    {
      durable := false;
      removed := Attempt();
      if removed {
        lapsed := lapsed + Points(trail, accepted);
        fs := Unlink(fs, Pending);
        accepted := Content(fs, Live);
        trail := [fs];
        durable := SyncDir();
      }
    }

    /** What a rollback from `fs0` that got as far as `at` left, if `failed` operations had failed before it. */
    ghost predicate RolledBackTo(fs0: Fs, at: RollbackStep, failed: nat)
      reads this
    {
      && fs == RolledTo(fs0, at) && (at.Finished? <==> fails == failed)
      && (at.Finished? ==> Durable() && Pending !in fs.dir && Content(fs, Live) == accepted)
    }

    /** Step 7, or the rollback of a flash that failed its verification. */
    method AfterVerify(success: bool) returns (at: RollbackStep)
      requires Valid()
      modifies this
      ensures Valid() && pins == old(pins)
      ensures !success ==> accepted == old(accepted) && (lapsed == old(lapsed) || lapsed == [])
      ensures !success && old(Pending in fs.dir) ==> RolledBackTo(old(fs), at, old(fails))
      ensures !success && old(Pending !in fs.dir) ==> unchanged(this)
      ensures success ==>
                if luck(old(ops)) then Pending !in fs.dir && accepted == Content(fs, Live) == old(Content(fs, Live))
                else fs == old(fs) && accepted == old(accepted)
      ensures success && fails == old(fails) ==> Durable()
      ensures Acceptable() <= old(Acceptable()) + {accepted}
    {
      at := Finished;
      if !success {
        if Pending in fs.dir {
          var finished;
          finished, at := Rollback();
        }
      } else {
        var removed, durable := Accept();
      }
    }

    /** Startup and marker recovery: an unverified flash is rolled back, and only then. */
    method Startup() returns (rolledBack: bool, at: RollbackStep)
      requires Valid()
      modifies this`fs, this`trail, this`lapsed, this`ops, this`fails
      ensures Valid() && rolledBack == old(Pending in fs.dir) && (lapsed == old(lapsed) || lapsed == [])
      ensures rolledBack ==> RolledBackTo(old(fs), at, old(fails))
      ensures !rolledBack ==> fs == old(fs)
    {
      at := Finished;
      rolledBack := Pending in fs.dir;
      if rolledBack {
        var finished;
        finished, at := Rollback();
      }
    }

    // --- any number of crashes ----------------------------------------------------------------

    /**
      Power is lost; the next agent finds the directory after one of the operations since the last
      sync, or one from before an acceptance that was not synced.
     */
    method Crash(i: nat)
      requires Valid() && i < |trail| + |lapsed|
      modifies this`fs, this`accepted, this`trail, this`lapsed
      ensures Valid() && Durable()
      ensures Point(fs, accepted) ==
              if i < old(|trail|) then Point(old(trail)[i], old(accepted)) else old(lapsed)[i - old(|trail|)]
      ensures accepted in old(Acceptable())
    {
      if i < |trail| {
        fs := trail[i];
      } else {
        fs, accepted := lapsed[i - |trail|].fs, lapsed[i - |trail|].accepted;
      }
      trail, lapsed := [fs], [];
    }

    /** Only a successful verification changes the accepted binary, and then to the live one. */
    method Run(c: Command)
      requires Valid()
      modifies this
      ensures Valid()
      ensures c != DoAfterVerify(true) ==> accepted == old(accepted)
      ensures accepted == old(accepted) || accepted == old(Content(fs, Live))
      ensures Acceptable() <= old(Acceptable()) + {accepted}
      ensures pins == old(pins) + if c.DoFlash? then {Lower(c.checksum)} else {}
    {
      match c
      case DoFlash(inSlot, image, checksum) => var o, at := Flash(inSlot, image, checksum);
      case DoAfterVerify(success) => var at := AfterVerify(success);
      case DoStartup => var rolled, at := Startup();
    }

    /** One call, and perhaps a crash that loses what was not synced. */
    method Life(c: Command, crash: bool)
      requires Valid()
      modifies this
      ensures Valid()
      ensures c != DoAfterVerify(true) ==> Acceptable() <= old(Acceptable())
      ensures Acceptable() <= old(Acceptable()) + {old(Content(fs, Live))}
      ensures pins == old(pins) + if c.DoFlash? then {Lower(c.checksum)} else {}
    {
      Run(c);
      if crash {
        var i: int := *;
        if 0 <= i < |trail| + |lapsed| {
          Crash(i);
        }
      }
    }

    /**
      Any sequence of backend calls, each followed by a loss of power or not, keeps the disk sound.
      Without a successful verification the accepted binary stays, once it is durable; else it is one
      that a lost sync brought back.  With one it is at most an image that one of the flashes pinned.
      A rollback that then runs to completion leaves exactly the accepted one live, for good.
     */
    method Lifetime(commands: seq<Command>, crashes: seq<bool>) returns (done: bool)
      requires Valid() && |crashes| == |commands|
      modifies this
      ensures Valid()
      ensures DoAfterVerify(true) !in commands ==> accepted in old(Acceptable())
      ensures DoAfterVerify(true) !in commands && old(lapsed) == [] ==> accepted == old(accepted)
      ensures accepted in old(Acceptable()) || accepted.None? || sha(accepted.value) in old(pins) + Pinned(commands)
      ensures done ==> Pending !in fs.dir && Content(fs, Live) == accepted
    {
      ghost var first, all := Acceptable(), old(pins) + Pinned(commands);
      for k := 0 to |commands|
        invariant Valid() && pins <= all
        invariant DoAfterVerify(true) !in commands ==> Acceptable() <= first
        invariant forall x :: x in Acceptable() ==> x in first || x.None? || sha(x.value) in all
      {
        assert commands[k] in commands;
        assert accepted in Acceptable();
        Life(commands[k], crashes[k]);
      }
      assert accepted in Acceptable();
      done := true;
      if Pending in fs.dir {
        var at;
        done, at := Rollback();
      }
    }
  }

  /** The digests that the flashes among the commands pin. */
  function Pinned(commands: seq<Command>): set<string> {
    set i | 0 <= i < |commands| && commands[i].DoFlash? :: Lower(commands[i].checksum)
  }
}

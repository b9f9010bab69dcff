/**
  Streaming an image: the resumable download into a partial file, and the write of the
  decompressed stream to a partition with bounded unsynced data.
 */
module OtaStream {
  import opened Options
  import opened Digests

  const STREAM_CHUNK := 1048576
  const SYNC_INTERVAL := 67108864

  // --- writing a partition -------------------------------------------------------------------------

  datatype Outcome = Installed | BadImage | IoError

  /**
    A partition open for writing. `delivered` is what has been written over `before`, `synced` how
    much of it is known to be on the medium, `peak` the most that was ever written and not synced.
   */
  class Partition {
    const take: nat -> nat   // how much the write call with this number takes at most
    const syncs: nat -> bool // whether the sync with this number works
    var calls: nat           // writes and syncs so far
    var faults: nat          // and those that failed
    ghost const before: Bytes
    ghost var delivered: Bytes
    var content: Bytes
    var pos: nat
    var synced: nat
    var peak: nat

    /** What was not written yet is untouched. */
    ghost predicate Valid()
      reads this
    {
      && |content| == |before| && pos == |delivered| <= |content|
      && content[..pos] == delivered && content[pos..] == before[pos..]
      && synced <= pos && pos - synced <= peak
    }

    constructor (content: Bytes, take: nat -> nat, syncs: nat -> bool)
      ensures Valid() && before == content && delivered == [] && synced == 0 && peak == 0
      ensures this.take == take && this.syncs == syncs && calls == faults == 0
    {
      this.take, this.syncs, calls, faults := take, syncs, 0, 0;
      before, delivered := content, [];
      this.content, pos, synced, peak := content, 0, 0, 0;
    }

    /** One write call takes some of the data; none is a failure, and a full partition takes none. */
    method Write(data: Bytes) returns (n: nat)
      requires Valid() && data != []
      modifies this
      ensures Valid() && synced == old(synced) && n <= |data| && delivered == old(delivered) + data[..n]
      ensures peak == old(peak) || peak == pos - synced
      ensures n == Least(take(old(calls)), |data|, |before| - old(pos))
      ensures calls == old(calls) + 1 && faults == old(faults) + if n == 0 then 1 else 0
    {
      n := Least(take(calls), |data|, |content| - pos);
      calls, faults := calls + 1, faults + if n == 0 then 1 else 0;
      Splice(content, pos, data[..n], before);
      content := content[..pos] + data[..n] + content[pos + n..];
      delivered := delivered + data[..n];
      pos := pos + n;
      if pos - synced > peak {
        peak := pos - synced;
      }
    }

    /** Writes all of the data in as many calls as it takes, or a prefix of it. */
    method WriteAll(data: Bytes) returns (ok: bool)
      requires Valid()
      modifies this
      ensures Valid() && synced == old(synced)
      ensures old(delivered) <= delivered <= old(delivered) + data
      ensures ok ==> delivered == old(delivered) + data
      ensures peak <= old(peak) || peak <= pos - synced
      ensures old(faults) <= faults && (ok <==> faults == old(faults))
    {
      var view := data;
      while view != []
        invariant Valid() && synced == old(synced)
        invariant old(delivered) <= delivered && delivered + view == old(delivered) + data
        invariant (peak <= old(peak) || peak <= pos - synced) && faults == old(faults)
        decreases |view|
      {
        ghost var had, rest := delivered, view;
        var written := Write(view);
        Advance(had, rest, written);
        view := view[written..];
        if written == 0 {
          return false;
        }
      }
      ok := true;
    }

    /** fdatasync or fsync: on success everything written so far is on the medium. */
    method Sync() returns (ok: bool)
      requires Valid()
      modifies this
      ensures Valid() && delivered == old(delivered) && peak == old(peak)
      ensures synced == if ok then |delivered| else old(synced)
      ensures ok == syncs(old(calls)) && calls == old(calls) + 1 && faults == old(faults) + if ok then 0 else 1
    {
      ok := syncs(calls);
      calls, faults := calls + 1, faults + if ok then 0 else 1;
      if ok {
        synced := pos;
      }
    }
  }

  function Least(a: nat, b: nat, c: nat): nat {
    var ab := if a < b then a else b;
    if ab < c then ab else c
  }

  lemma Splice(content: Bytes, pos: nat, piece: Bytes, before: Bytes)
    requires pos + |piece| <= |content| == |before| && content[pos..] == before[pos..]
    ensures var next, end := content[..pos] + piece + content[pos + |piece|..], pos + |piece|;
            |next| == |content| && next[..end] == content[..pos] + piece && next[end..] == before[end..]
  {
    var end := pos + |piece|;
    assert content[end..] == content[pos..][|piece|..] && before[end..] == before[pos..][|piece|..];
  }

  lemma Advance(had: Bytes, view: Bytes, n: nat)
    requires n <= |view|
    ensures had + view[..n] + view[n..] == had + view
  {
  }

  /** What one read of the decompressed stream comes to; a chunk is never empty before the end. */
  datatype Reading = Chunk(n: nat) | Corrupt | ReadError

  function ChunkSize(n: nat, left: nat): (r: nat)
    ensures r <= STREAM_CHUNK && r <= left && (r == 0 <==> left == 0)
  {
    if 0 < n <= STREAM_CHUNK && n <= left then n else if left < STREAM_CHUNK then left else STREAM_CHUNK
  }

  /**
    Streams the image that the archive decompresses to. However the reads and writes are cut, the
    partition holds a prefix of it, all of it and on the medium on success, and never more than
    the bound has been waiting for a sync.  It fails only if a read, a write or a sync did, and as bad image
    exactly if a read found the archive corrupt.
   */
  method InstallToSlot(image: Bytes, p: Partition, read: nat -> Reading) returns (outcome: Outcome, count: nat)
    requires p.Valid() && p.delivered == [] && p.peak == 0
    modifies p
    ensures p.Valid() && p.delivered <= image
    ensures outcome == Installed ==> p.delivered == image && p.synced == |image|
    ensures p.peak <= SYNC_INTERVAL + STREAM_CHUNK - 1
    ensures count > 0 && forall i :: 0 <= i < count - 1 ==> read(i).Chunk?
    ensures outcome == BadImage <==> read(count - 1).Corrupt?
    ensures outcome == IoError <==> read(count - 1).ReadError? || p.faults > old(p.faults)
  {
    var at, sinceSync := 0, 0;
    count := 0;
    while true
      invariant p.Valid() && at <= |image| && p.delivered == image[..at] && p.faults == old(p.faults)
      invariant p.pos - p.synced == sinceSync < SYNC_INTERVAL
      invariant p.peak <= SYNC_INTERVAL + STREAM_CHUNK - 1
      invariant forall i :: 0 <= i < count ==> read(i).Chunk?
      decreases |image| - at
    {
      var r := read(count);
      count := count + 1;
      if !r.Chunk? {
        outcome := if r.Corrupt? then BadImage else IoError;
        return;
      }
      var n := ChunkSize(r.n, |image| - at);
      if n == 0 {
        break;
      }
      var chunk := image[at..at + n];
      assert image[..at] + chunk == image[..at + n];
      var ok := p.WriteAll(chunk);
      PrefixOfImage(p.delivered, image, at + n);
      if !ok {
        outcome := IoError;
        return;
      }
      at := at + n;
      sinceSync := sinceSync + n;
      if sinceSync >= SYNC_INTERVAL {
        ok := p.Sync();
        if !ok {
          outcome := IoError;
          return;
        }
        sinceSync := 0;
      }
    }
    var ok := p.Sync();
    outcome := if ok then Installed else IoError;
  }

  lemma PrefixOfImage(b: Bytes, image: Bytes, n: nat)
    requires n <= |image| && b <= image[..n]
    ensures b <= image
  {
  }

  // --- the resumable download --------------------------------------------------------------------------

  /** An answer with a body; `start` is where its Content-Range says it begins, if it says so. */
  datatype Response = NoResponse | Response(status: nat, start: Option<nat>, body: Bytes)

  /** What a server does with one request: not answer, or with this status the image from and to some place. */
  datatype Mood = Mood(dropped: bool, status: nat, from: nat, to: nat, stated: bool)

  /**
    The server: it sends 206 only to a Range request, what it sends under 200 is the image from its
    start, and under 206 the image from where its Content-Range says.
   */
  function Serve(image: Bytes, range: Option<nat>, m: Mood): (r: Response)
    ensures r.Response? && r.status == 200 ==> r.body <= image
    ensures r.Response? && r.status == 206 ==>
              range.Some? && (r.start.Some? ==> r.start.value <= |image| && r.body <= image[r.start.value..])
  {
    if m.dropped || (m.status == 206 && range.None?) then NoResponse
    else
      var from := if m.status == 206 && m.from <= |image| then m.from else 0;
      Response(m.status, if m.stated then Some(from) else None,
               image[from..if from <= m.to <= |image| then m.to else |image|])
  }

  /** A request with its Range, if any, and what came back. */
  datatype Exchange = Exchange(range: Option<nat>, response: Response)

  /** A partial file on disk, or none. */
  type File = Option<Bytes>

  predicate PrefixOf(f: File, image: Bytes) {
    f.None? || f.value <= image
  }

  /** The partial has the expected size already. */
  predicate Complete(f: File, resume: bool, expectedSize: Option<nat>) {
    resume && f.Some? && expectedSize == Some(|f.value|)
  }

  /** A partial that is not empty and not too long is continued. */
  function RangeFor(f: File, resume: bool, expectedSize: Option<nat>): Option<nat> {
    if resume && f.Some? && f.value != [] && (expectedSize.Some? ==> |f.value| <= expectedSize.value)
    then Some(|f.value|) else None
  }

  /** The server cannot continue where the partial ends. */
  predicate Restarts(x: Exchange) {
    && x.range.Some? && x.response.Response?
    && (x.response.status == 416 || (x.response.status == 206 && x.response.start != x.range))
  }

  /** What an exchange makes of the file `f` when it is stored, if it can be. */
  function Stored(f: File, x: Exchange): File {
    if !x.response.Response? || (x.response.status != 200 && x.response.status != 206) then None
    else Some((if x.response.status == 206 && x.range.Some? && f.Some? then f.value else []) + x.response.body)
  }

  /**
    The agent downloading one image. `points` is what is on disk after every change, so a crash
    leaves one of them; `log` is what was asked of the server.  What the server and the file system do is
    told by `moods` and `luck`; `faults` counts the file operations that failed and were needed.
   */
  class Downloader {
    const image: Bytes
    const digest: Bytes -> string
    const moods: nat -> Mood
    const luck: nat -> bool
    const cut: nat -> nat    // how much the write with this number puts on disk
    var ops: nat
    var faults: nat
    var file: File
    var points: seq<File>
    var log: seq<Exchange>

    /** Every crash from `from` on leaves a prefix of the image. */
    ghost predicate Sound(from: nat)
      reads this
    {
      PrefixOf(file, image) && forall k :: from <= k < |points| ==> PrefixOf(points[k], image)
    }

    constructor (image: Bytes, digest: Bytes -> string, file: File, moods: nat -> Mood, luck: nat -> bool,
                 cut: nat -> nat)
      ensures this.image == image && this.digest == digest && this.file == file && points == [] && log == []
      ensures this.moods == moods && this.luck == luck && this.cut == cut && ops == faults == 0
    {
      this.image, this.digest, this.file, points, log := image, digest, file, [], [];
      this.moods, this.luck, this.cut, ops, faults := moods, luck, cut, 0, 0;
    }

    method Put(f: File)
      modifies `file, `points
      ensures file == f && points == old(points) + [f]
    {
      file := f;
      points := points + [f];
    }

    /** Removal is best effort. */
    method Remove()
      modifies `file, `points, `ops
      ensures file == if luck(old(ops)) then None else old(file)
      ensures ops == old(ops) + 1 && old(points) <= points
      ensures forall k :: |old(points)| <= k < |points| ==> points[k] == None
    {
      var ok := luck(ops);
      ops := ops + 1;
      if ok {
        Put(None);
      }
    }

    /** A file operation that must work. */
    method Needed() returns (ok: bool)
      modifies `ops, `faults
      ensures ok == luck(old(ops)) && ops == old(ops) + 1 && faults == old(faults) + if ok then 0 else 1
    {
      ok := luck(ops);
      ops, faults := ops + 1, faults + if ok then 0 else 1;
    }

    method Request(range: Option<nat>) returns (r: Response)
      modifies `log
      ensures r == Serve(image, range, moods(|old(log)|)) && log == old(log) + [Exchange(range, r)]
    {
      r := Serve(image, range, moods(|log|));
      log := log + [Exchange(range, r)];
    }

    ghost function Total(append: bool, body: Bytes): Bytes
      reads this
    {
      (if append && file.Some? then file.value else []) + body
    }

    /** Appends the body in chunks; an error removes the file. */
    method WriteBody(body: Bytes, ghost mark: nat) returns (ok: bool)
      requires file.Some?
      modifies `file, `points, `ops, `faults
      ensures ok ==> file == Some(old(file).value + body)
      ensures old(faults) <= faults && (ok <==> faults == old(faults))
      ensures !ok ==> ops > 0 && (luck(ops - 1) ==> file == None)
      ensures old(Sound(mark)) && old(file).value + body <= image ==> Sound(mark)
      ensures old(points) <= points
    {
      ghost var start := file.value;
      var at := 0;
      assert start + body[..at] == start;
      while at < |body|
        invariant at <= |body| && file == Some(start + body[..at])
        invariant old(points) <= points && faults == old(faults)
        invariant old(Sound(mark)) && start + body <= image ==> Sound(mark)
      {
        ok := Needed();
        if !ok {
          Remove();
          return false;
        }
        var n := ChunkSize(cut(ops), |body| - at);
        NextChunk(start, body, at, n, image);
        Put(Some(file.value + body[at..at + n]));
        at := at + n;
      }
      assert body[..at] == body;
      ok := true;
    }

    /** Opens the file to append or from scratch and writes the body; an error removes it. */
    method Store(append: bool, body: Bytes) returns (ok: bool)
      modifies `file, `points, `ops, `faults
      ensures ok ==> file == Some(old(Total(append, body)))
      ensures old(faults) <= faults && (ok <==> faults == old(faults))
      ensures !ok ==> ops > 0 && (luck(ops - 1) ==> file == None)
      ensures old(PrefixOf(file, image)) && old(Total(append, body)) <= image ==> Sound(|old(points)|)
      ensures old(points) <= points
    {
      ok := Needed();
      if !ok {
        Remove();
        return false;
      }
      Put(Some(if append && file.Some? then file.value else []));
      ok := WriteBody(body, |old(points)|);
    }

    /** The file has the wanted digest, or none is wanted. */
    predicate Checks(f: File, checksum: string) {
      checksum == "" || (f.Some? && digest(f.value) == checksum)
    }

    /** Hashes the file in chunks; an empty checksum opts out, a mismatch or an error removes the file. */
    method VerifyChecksum(checksum: string) returns (ok: bool)
      modifies `file, `points, `ops, `faults
      ensures ok ==> file == old(file) && Checks(file, checksum)
      ensures old(faults) <= faults && (faults == old(faults) ==> (ok <==> Checks(old(file), checksum)))
      ensures !ok ==> ops > 0 && file == if luck(ops - 1) then None else old(file)
      ensures old(PrefixOf(file, image)) ==> Sound(|old(points)|)
      ensures old(points) <= points
    {
      if checksum == "" {
        return true;
      }
      var readable := Needed();
      if file.None? || !readable {
        Remove();
        return false;
      }
      var hashed := [];
      while |hashed| < |file.value|
        invariant file == old(file) && points == old(points) && faults == old(faults) && hashed <= file.value
        decreases |file.value| - |hashed|
      {
        var left := |file.value| - |hashed|;
        hashed := file.value[..|hashed| + if left < STREAM_CHUNK then left else STREAM_CHUNK];
      }
      assert hashed == file.value;
      if digest(hashed) != checksum {
        Remove();
        return false;
      }
      ok := true;
    }

    /** Stores what came back and checks it. */
    method Receive(x: Exchange, checksum: string) returns (ok: bool)
      requires x.response.Response? && !Restarts(x)
      modifies `file, `points, `ops, `faults
      ensures ok ==> file == Stored(old(file), x) && Checks(file, checksum)
      ensures old(faults) <= faults
      ensures faults == old(faults) ==>
                (ok <==> Stored(old(file), x).Some? && Checks(Stored(old(file), x), checksum))
      ensures old(PrefixOf(file, image)) && PrefixOf(Stored(old(file), x), image) ==> Sound(|old(points)|)
      ensures old(points) <= points
    {
      var r := x.response;
      if r.status != 200 && r.status != 206 {
        return false;
      }
      ok := Needed();
      if !ok {
        return false;
      }
      ok := Store(r.status == 206 && x.range.Some?, r.body);
      if ok {
        ok := VerifyChecksum(checksum);
      }
    }

    /** One request from the start; what is on disk is replaced. */
    method DownloadFresh(checksum: string) returns (ok: bool)
      modifies this
      ensures old(PrefixOf(file, image)) ==> Sound(|old(points)|)
      ensures |log| == |old(log)| + 1 && old(log) <= log && log[|log| - 1].range == None
      ensures log[|log| - 1].response == Serve(image, None, moods(|old(log)|))
      ensures Ends(old(file), checksum, ok, old(faults)) && old(points) <= points
    {
      var r := Request(None);
      if r.NoResponse? {
        return false;
      }
      ok := Receive(Exchange(None, r), checksum);
    }

    /** What a download whose last exchange met the file `f` answers. */
    ghost predicate Ends(f: File, checksum: string, ok: bool, failed: nat)
      requires log != []
      reads this
    {
      var stored := Stored(f, log[|log| - 1]);
      && failed <= faults && (ok ==> file == stored && Checks(file, checksum))
      && (faults == failed ==> (ok <==> stored.Some? && Checks(stored, checksum)))
    }

    /**
      From a partial that is a prefix of the image, every crash point is one too.  A complete partial is
      only checked.  Any other is continued from its end if it can be; where the server cannot, one more
      request starts over.  With no file operation failing, the answer is that of the stored file's check.
     */
    method Download(checksum: string, resume: bool, expectedSize: Option<nat>) returns (ok: bool)
      modifies this
      ensures old(PrefixOf(file, image)) ==> Sound(|old(points)|)
      ensures old(log) <= log && old(points) <= points && old(faults) <= faults
      ensures ok ==> Checks(file, checksum)
      ensures Complete(old(file), resume, expectedSize) ==>
                && log == old(log) && (ok ==> file == old(file))
                && (faults == old(faults) ==> (ok <==> Checks(old(file), checksum)))
      ensures !Complete(old(file), resume, expectedSize) ==>
                && |old(log)| < |log|
                && var x := log[|old(log)|];
                   && x.range == RangeFor(old(file), resume, expectedSize)
                   && x.response == Serve(image, x.range, moods(|old(log)|))
                   && |log| == |old(log)| + (if Restarts(x) then 2 else 1)
                   && (Restarts(x) ==> log[|log| - 1].range == None)
                   && Ends(old(file), checksum, ok, old(faults))
    {
      if Complete(file, resume, expectedSize) {
        ok := VerifyChecksum(checksum);
        return;
      }
      var range := RangeFor(file, resume, expectedSize);
      if resume && file.Some? && expectedSize.Some? && |file.value| > expectedSize.value {
        Remove();
      }
      var r := Request(range);
      if r.NoResponse? {
        return false;
      }
      if Restarts(Exchange(range, r)) {
        Remove();
        ok := DownloadFresh(checksum);
        return;
      }
      Continues(image, old(file), range, moods(|old(log)|));
      ok := Receive(Exchange(range, r), checksum);
    }

    /** Any number of downloads, each of which may crash anywhere: the partial stays a prefix. */
    method Lifetime(rounds: nat, checksum: string, expectedSize: Option<nat>)
      modifies this
      ensures old(PrefixOf(file, image)) ==> Sound(|old(points)|)
      ensures |log| <= |old(log)| + 2 * rounds
    {
      for i := 0 to rounds
        invariant old(points) <= points && |log| <= |old(log)| + 2 * i
        invariant old(PrefixOf(file, image)) ==> Sound(|old(points)|)
      {
        var mark := |points|;
        var ok := Download(checksum, true, expectedSize);
        var crash: int := *;
        if mark <= crash < |points| {
          Put(points[crash]);
        }
      }
    }
  }

  lemma NextChunk(start: Bytes, body: Bytes, at: nat, n: nat, image: Bytes)
    requires at + n <= |body|
    ensures start + body[..at] + body[at..at + n] == start + body[..at + n]
    ensures start + body <= image ==> start + body[..at + n] <= image
  {
    assert body[..at] + body[at..at + n] == body[..at + n];
    assert start + body[..at + n] == (start + body)[..|start| + at + n];
  }

  /** What the server sends on, where it can, continues a prefix of the image. */
  lemma Continues(image: Bytes, f: File, range: Option<nat>, m: Mood)
    requires range.Some? ==> f.Some? && range.value == |f.value|
    ensures var x := Exchange(range, Serve(image, range, m));
            PrefixOf(f, image) && !Restarts(x) ==> PrefixOf(Stored(f, x), image)
  {
    var x := Exchange(range, Serve(image, range, m));
    if PrefixOf(f, image) && !Restarts(x) && x.response.Response? && x.response.status == 206 {
      var n := |f.value|;
      assert image == image[..n] + image[n..] && f.value == image[..n];
      PrefixOn(f.value, x.response.body, image);
    }
  }

  lemma PrefixOn(a: Bytes, b: Bytes, image: Bytes)
    requires a <= image && b <= image[|a|..]
    ensures a + b <= image
  {
    assert (a + b) == image[..|a| + |b|];
  }
}

/**
  The boot markers on the kernel command line: which occurrence counts, what the overlay list
  says, and the gate that keeps a trial boot from being committed.
 */
module BootMarkers {
  import opened Options
  import opened KernelArgs

  const STAGE2_KEY := "oe5xrx.stage2"
  const OVERLAYS_KEY := "oe5xrx.overlays"

  // --- the reference definition of a marker ----------------------------------------------------

  /** The bare `--` after which arguments belong to init. */
  const SPLIT := Arg("--", None)

  /** Where the init side starts, looking from `i` on. */
  function SplitAt(args: seq<Arg>, i: nat): (n: nat)
    requires i <= |args|
    ensures i <= n <= |args| && (n < |args| ==> args[n] == SPLIT)
    ensures forall j :: i <= j < n ==> args[j] != SPLIT
    decreases |args| - i
  {
    if i == |args| || args[i] == SPLIT then i else SplitAt(args, i + 1)
  }

  function Text(a: Arg): string {
    if a.value.None? then "" else a.value.value
  }

  /** The text of the last occurrence of `key` in `args[lo..hi]`. */
  function Last(args: seq<Arg>, key: string, lo: nat, hi: nat): Option<string>
    requires lo <= hi <= |args|
    decreases hi
  {
    if lo == hi then None
    else if args[hi - 1].param == key then Some(Text(args[hi - 1]))
    else Last(args, key, lo, hi - 1)
  }

  predicate Absent(args: seq<Arg>, key: string, lo: nat, hi: nat)
    requires lo <= hi <= |args|
  {
    forall i :: lo <= i < hi ==> args[i].param != key
  }

  /** `Last` is absent if and only if the key is, and else what its last occurrence says. */
  lemma {:induction false} LastMeans(args: seq<Arg>, key: string, lo: nat, hi: nat)
    requires lo <= hi <= |args|
    ensures match Last(args, key, lo, hi)
            case None => Absent(args, key, lo, hi)
            case Some(text) =>
              exists i :: lo <= i < hi && args[i].param == key && Absent(args, key, i + 1, hi)
                          && text == if args[i].value.Some? then args[i].value.value else ""
    decreases hi
  {
    if lo < hi && args[hi - 1].param != key {
      LastMeans(args, key, lo, hi - 1);
    }
  }

  /** A marker is its last kernel-side occurrence, else its last one after `--`. */
  function Marker(args: seq<Arg>, key: string): Option<string> {
    var n := SplitAt(args, 0);
    var kernel := Last(args, key, 0, n);
    if kernel.Some? then kernel else Last(args, key, n, |args|)
  }

  // --- overlay lists ---------------------------------------------------------------------------

  datatype Overlays = Ok | Failed | Malformed

  predicate NameChar(c: char) {
    'A' <= c <= 'Z' || 'a' <= c <= 'z' || '0' <= c <= '9' || c == '.' || c == '_' || c == '+' || c == '-'
  }

  predicate ValidName(s: string) {
    && 1 <= |s| <= 64 && s[0] !in "._+-"
    && forall i :: 0 <= i < |s| ==> NameChar(s[i])
  }

  predicate ValidNames(names: seq<string>) {
    forall k :: 0 <= k < |names| ==> ValidName(names[k])
  }

  function Split(s: string, c: char): (r: seq<string>)
    ensures r != []
  {
    match Find(s, c)
    case None => [s]
    case Some(i) => [s[..i]] + Split(s[i + 1..], c)
  }

  function Join(names: seq<string>, c: char): string
    requires names != []
  {
    if |names| == 1 then names[0] else names[0] + [c] + Join(names[1..], c)
  }

  function ParseOverlays(raw: string): (Overlays, seq<string>) {
    if raw == "ok" then (Ok, [])
    else
      match Find(raw, ':')
      case None => (Malformed, [])
      case Some(i) =>
        var state, rest := raw[..i], raw[i + 1..];
        if state !in ["ok", "failed"] then (Malformed, [])
        else if rest == "" then if state == "ok" then (Ok, []) else (Malformed, [])
        else if !ValidNames(Split(rest, ',')) then (Malformed, [])
        else (if state == "ok" then Ok else Failed, Split(rest, ','))
  }

  lemma {:induction false} JoinSplit(s: string, c: char)
    ensures Join(Split(s, c), c) == s
    decreases |s|
  {
    var f := Find(s, c);
    if f.Some? {
      JoinSplit(s[f.value + 1..], c);
      assert Split(s, c)[1..] == Split(s[f.value + 1..], c);
      assert s == s[..f.value] + [c] + s[f.value + 1..];
    }
  }

  lemma {:induction false} SplitJoin(names: seq<string>, c: char)
    requires names != [] && forall k :: 0 <= k < |names| ==> c !in names[k]
    ensures Split(Join(names, c), c) == names
  {
    var s, n := Join(names, c), |names[0]|;
    if |names| == 1 {
      FirstFound(s, c, None);
    } else {
      assert s[n] == c && s[..n] == names[0] && s[n + 1..] == Join(names[1..], c);
      FirstFound(s, c, Some(n));
      SplitJoin(names[1..], c);
    }
  }

  /** How the boot script writes a list of overlays. */
  function ShowOverlays(failed: bool, names: seq<string>): string
    requires names != []
  {
    (if failed then "failed" else "ok") + ":" + Join(names, ',')
  }

  lemma {:induction false} JoinedIsNotEmpty(names: seq<string>)
    requires names != [] && ValidNames(names)
    ensures Join(names, ',') != ""
  {
  }

  /** Every non-empty list of valid names survives being written and parsed. */
  lemma OverlaysRoundTrip(failed: bool, names: seq<string>)
    requires names != [] && ValidNames(names)
    ensures ParseOverlays(ShowOverlays(failed, names)) == (if failed then Failed else Ok, names)
  {
    var raw, state := ShowOverlays(failed, names), if failed then "failed" else "ok";
    assert forall k :: 0 <= k < |names| ==> ',' !in names[k];
    SplitJoin(names, ',');
    JoinedIsNotEmpty(names);
    assert raw[|state|] == ':' && raw[..|state|] == state && raw[|state| + 1..] == Join(names, ',');
    FirstFound(raw, ':', Some(|state|));
  }

  /** Only what the boot script writes, `ok` and `ok:` parse; anything else is malformed. */
  lemma OverlaysParseOnlyWritten(raw: string)
    ensures var (state, names) := ParseOverlays(raw);
            && (state.Malformed? ==> names == [])
            && (state.Failed? ==> names != [])
            && (names == [] && state.Ok? ==> raw in ["ok", "ok:"])
            && (names != [] ==> ValidNames(names) && raw == ShowOverlays(state.Failed?, names))
  {
    var f := Find(raw, ':');
    if raw != "ok" && f.Some? {
      var state, rest := raw[..f.value], raw[f.value + 1..];
      assert raw == state + ":" + rest;
      assert state == "ok" && rest == "" ==> raw == "ok:";
      JoinSplit(rest, ',');
    }
  }

  // --- parsing -----------------------------------------------------------------------------------

  datatype Markers = Markers(stage2: Option<string>, overlays: Option<Overlays>, overlaysRaw: string,
                             overlayNames: seq<string>, failedOverlays: seq<string>)

  function Parsed(args: seq<Arg>): Markers {
    var stage2 := Marker(args, STAGE2_KEY);
    match Marker(args, OVERLAYS_KEY)
    case None => Markers(stage2, None, "", [], [])
    case Some(raw) =>
      var (state, names) := ParseOverlays(raw);
      Markers(stage2, Some(state), raw, if state.Ok? then names else [], if state.Failed? then names else [])
  }

  function Lookup(m: map<string, string>, key: string): Option<string> {
    if key in m then Some(m[key]) else None
  }

  /** A dictionary filled from `args[lo..hi]` holds the last occurrence of each marker. */
  ghost predicate Filled(m: map<string, string>, args: seq<Arg>, lo: nat, hi: nat)
    requires lo <= hi <= |args|
  {
    && Lookup(m, STAGE2_KEY) == Last(args, STAGE2_KEY, lo, hi)
    && Lookup(m, OVERLAYS_KEY) == Last(args, OVERLAYS_KEY, lo, hi)
  }

  function Put(m: map<string, string>, a: Arg): map<string, string> {
    if a.param == STAGE2_KEY || a.param == OVERLAYS_KEY then m[a.param := Text(a)] else m
  }

  lemma FilledNext(m: map<string, string>, args: seq<Arg>, lo: nat, hi: nat)
    requires lo <= hi < |args| && Filled(m, args, lo, hi)
    ensures Filled(Put(m, args[hi]), args, lo, hi + 1)
  {
  }

  method ParseBootMarkers(cmdline: string) returns (r: Markers)
    ensures r == Parsed(Args(cmdline))
  {
    var args := Tokenize(cmdline);
    var found := FillMarkers(args);
    r := BuildMarkers(args, Lookup(found, STAGE2_KEY), Lookup(found, OVERLAYS_KEY));
  }

  method BuildMarkers(ghost args: seq<Arg>, stage2: Option<string>, overlays: Option<string>) returns (r: Markers)
    requires stage2 == Marker(args, STAGE2_KEY) && overlays == Marker(args, OVERLAYS_KEY)
    ensures r == Parsed(args)
  {
    if overlays.None? {
      return Markers(stage2, None, "", [], []);
    }
    var (state, names) := ParseOverlays(overlays.value);
    r := Markers(stage2, Some(state), overlays.value, if state.Ok? then names else [],
                 if state.Failed? then names else []);
  }

  /** The loop over the arguments with its two dictionaries. */
  method FillMarkers(args: seq<Arg>) returns (found: map<string, string>)
    ensures Lookup(found, STAGE2_KEY) == Marker(args, STAGE2_KEY)
    ensures Lookup(found, OVERLAYS_KEY) == Marker(args, OVERLAYS_KEY)
  {
    var kernel: map<string, string>, init: map<string, string> := map[], map[];
    var onInit := false;
    ghost var n := SplitAt(args, 0);
    for k := 0 to |args|
      invariant onInit <==> n < k
      invariant Filled(kernel, args, 0, if k < n then k else n)
      invariant Filled(init, args, n, if k < n then n else k)
    {
      var a := args[k];
      if k < n {
        FilledNext(kernel, args, 0, k);
      } else {
        FilledNext(init, args, n, k);
      }
      if a.param == "--" && a.value.None? && !onInit {
        onInit := true;
      } else if onInit {
        init := Put(init, a);
      } else {
        kernel := Put(kernel, a);
      }
    }
    found := init + kernel;
    Merged(args, kernel, init);
  }

  lemma Merged(args: seq<Arg>, kernel: map<string, string>, init: map<string, string>)
    requires Filled(kernel, args, 0, SplitAt(args, 0)) && Filled(init, args, SplitAt(args, 0), |args|)
    ensures Lookup(init + kernel, STAGE2_KEY) == Marker(args, STAGE2_KEY)
    ensures Lookup(init + kernel, OVERLAYS_KEY) == Marker(args, OVERLAYS_KEY)
  {
  }

  // --- the gate --------------------------------------------------------------------------------------

  predicate Legacy(m: Markers) {
    m.stage2.None? && m.overlays.None?
  }

  datatype Blocker = Stage2Not(value: string) | Stage2Unknown(value: string)
                   | OverlaysFailed(names: seq<string>) | OverlaysMalformed(raw: string)

  function Blockers(m: Markers): seq<Blocker> {
    (if m.stage2.Some? && m.stage2.value != "ok"
     then if m.stage2.value in ["ok", "missing", "failed"] then [Stage2Not(m.stage2.value)]
          else [Stage2Unknown(m.stage2.value)]
     else [])
    + (if m.overlays == Some(Failed) then [OverlaysFailed(m.failedOverlays)]
       else if m.overlays == Some(Malformed) then [OverlaysMalformed(m.overlaysRaw)]
       else [])
  }

  function Metrics(m: Markers): map<string, nat> {
    (if m.stage2.Some? then map["boot.stage2_ok" := if m.stage2.value == "ok" then 1 else 0] else map[])
    + (if m.overlays.None? then map[]
       else map["boot.overlays_failed" :=
                if m.overlays.value.Failed? then |m.failedOverlays|
                else if m.overlays.value.Malformed? then 1 else 0])
  }

  predicate Healthy(metrics: map<string, nat>) {
    && ("boot.stage2_ok" in metrics ==> metrics["boot.stage2_ok"] == 1)
    && ("boot.overlays_failed" in metrics ==> metrics["boot.overlays_failed"] == 0)
  }

  predicate Opens(args: seq<Arg>) {
    var m := Parsed(args); Legacy(m) || Blockers(m) == []
  }

  /** The line is legacy if and only if no marker param occurs anywhere on it. */
  lemma LegacyIffNoMarker(args: seq<Arg>)
    ensures Legacy(Parsed(args)) <==> Absent(args, STAGE2_KEY, 0, |args|) && Absent(args, OVERLAYS_KEY, 0, |args|)
  {
    MarkerAbsentIff(args, STAGE2_KEY);
    MarkerAbsentIff(args, OVERLAYS_KEY);
  }

  lemma MarkerAbsentIff(args: seq<Arg>, key: string)
    ensures Marker(args, key).None? <==> Absent(args, key, 0, |args|)
  {
    var n := SplitAt(args, 0);
    LastMeans(args, key, 0, n);
    LastMeans(args, key, n, |args|);
  }

  predicate FailureIsNamed(m: Markers) {
    m.overlays == Some(Failed) ==> m.failedOverlays != []
  }

  lemma ParsedFailureIsNamed(args: seq<Arg>)
    ensures FailureIsNamed(Parsed(args))
  {
    var raw := Marker(args, OVERLAYS_KEY);
    if raw.Some? {
      OverlaysParseOnlyWritten(raw.value);
    }
  }

  /** The metrics agree with the blockers if and only if a failure names an overlay. */
  lemma MetricsAgreeIffNamed(m: Markers)
    ensures (Blockers(m) == [] <==> Healthy(Metrics(m)))
            <==> FailureIsNamed(m) || (m.stage2.Some? && m.stage2.value != "ok")
  {
  }

  /** On every command line the commit is blocked if and only if some reported metric is unhealthy. */
  lemma BlockedIffUnhealthy(args: seq<Arg>)
    ensures Blockers(Parsed(args)) == [] <==> Healthy(Metrics(Parsed(args)))
  {
    ParsedFailureIsNamed(args);
    MetricsAgreeIffNamed(Parsed(args));
  }

  /** The overlay markers that let a commit through. */
  ghost predicate GoodOverlays(raw: string) {
    raw in ["ok", "ok:"] || exists names :: names != [] && ValidNames(names) && raw == ShowOverlays(false, names)
  }

  /** The gate opens for exactly these command lines. */
  lemma OpensIff(args: seq<Arg>)
    ensures Opens(args) <==>
              && (var v := Marker(args, STAGE2_KEY); v.None? || v.value == "ok")
              && (var v := Marker(args, OVERLAYS_KEY); v.None? || GoodOverlays(v.value))
  {
    var v := Marker(args, OVERLAYS_KEY);
    if v.Some? {
      OkIffGood(v.value);
    }
  }

  lemma OkIffGood(raw: string)
    ensures ParseOverlays(raw).0.Ok? <==> GoodOverlays(raw)
  {
    OverlaysParseOnlyWritten(raw);
    if names :| names != [] && ValidNames(names) && raw == ShowOverlays(false, names) {
      OverlaysRoundTrip(false, names);
    }
    if raw == "ok:" {
      FirstFound(raw, ':', Some(2));
      assert raw[..2] == "ok" && raw[3..] == "";
    }
  }

  /** The overlays a blocker names are those of a written failure, and everything else that is not good is malformed. */
  lemma BlockerNamesIff(args: seq<Arg>, names: seq<string>, raw: string)
    ensures OverlaysFailed(names) in Blockers(Parsed(args)) <==>
              names != [] && ValidNames(names) && Marker(args, OVERLAYS_KEY) == Some(ShowOverlays(true, names))
    ensures OverlaysMalformed(raw) in Blockers(Parsed(args)) <==>
              Marker(args, OVERLAYS_KEY) == Some(raw) && !GoodOverlays(raw) && !WrittenFailure(raw)
  {
    if names != [] && ValidNames(names) {
      OverlaysRoundTrip(true, names);
    }
    var v := Marker(args, OVERLAYS_KEY);
    if v.Some? {
      OverlaysParseOnlyWritten(v.value);
      OkIffGood(v.value);
      FailedIffWritten(v.value);
    }
  }

  ghost predicate WrittenFailure(raw: string) {
    exists names :: names != [] && ValidNames(names) && raw == ShowOverlays(true, names)
  }

  lemma FailedIffWritten(raw: string)
    ensures ParseOverlays(raw).0.Failed? <==> WrittenFailure(raw)
  {
    OverlaysParseOnlyWritten(raw);
    if names :| names != [] && ValidNames(names) && raw == ShowOverlays(true, names) {
      OverlaysRoundTrip(true, names);
    }
  }

  /** Stage 2 blocks with its text unless that is ok, told apart by whether the boot script knows it. */
  lemma Stage2BlocksIff(args: seq<Arg>, text: string)
    ensures Stage2Not(text) in Blockers(Parsed(args)) <==>
              Marker(args, STAGE2_KEY) == Some(text) && text in ["missing", "failed"]
    ensures Stage2Unknown(text) in Blockers(Parsed(args)) <==>
              Marker(args, STAGE2_KEY) == Some(text) && text !in ["ok", "missing", "failed"]
  {
  }

  /** A metric is reported exactly with its marker; the overlay one counts the overlays that failed. */
  lemma MetricsMean(args: seq<Arg>, names: seq<string>)
    ensures var m := Metrics(Parsed(args));
            && ("boot.stage2_ok" in m <==> Marker(args, STAGE2_KEY).Some?)
            && ("boot.stage2_ok" in m ==> m["boot.stage2_ok"] <= 1)
            && ("boot.overlays_failed" in m <==> Marker(args, OVERLAYS_KEY).Some?)
            && (names != [] && ValidNames(names) && Marker(args, OVERLAYS_KEY) == Some(ShowOverlays(true, names)) ==>
                  m["boot.overlays_failed"] == |names|)
            && (OverlaysMalformed(Parsed(args).overlaysRaw) in Blockers(Parsed(args)) ==> m["boot.overlays_failed"] == 1)
  {
    if names != [] && ValidNames(names) {
      OverlaysRoundTrip(true, names);
    }
  }

  /** What reading the command line file came to; a missing file with procfs mounted is hidden. */
  datatype Reading = Line(text: string) | Missing(procfs: bool) | Unreadable

  /**
    The health check fails closed: a hidden or unreadable command line never passes, a missing one only
    without procfs, and a line only with its markers absent or good.
   */
  method Check(r: Reading) returns (passed: bool)
    ensures passed ==> r.Line? || r == Missing(false)
    ensures r == Missing(false) ==> passed
    ensures r.Line? ==>
              (passed <==>
                 && (var v := Marker(Args(r.text), STAGE2_KEY); v.None? || v.value == "ok")
                 && (var v := Marker(Args(r.text), OVERLAYS_KEY); v.None? || GoodOverlays(v.value)))
  {
    if r.Missing? {
      return !r.procfs;
    }
    if r.Unreadable? {
      return false;
    }
    var m := ParseBootMarkers(r.text);
    passed := Legacy(m) || Blockers(m) == [];
    OpensIff(Args(r.text));
  }

  // --- appending -----------------------------------------------------------------------------------------

  lemma {:induction false} SplitAtAppend(args: seq<Arg>, a: Arg, i: nat)
    requires a != SPLIT && i <= |args|
    ensures SplitAt(args + [a], i) == if SplitAt(args, i) < |args| then SplitAt(args, i) else |args| + 1
    decreases |args| - i
  {
    if i < |args| && args[i] != SPLIT {
      SplitAtAppend(args, a, i + 1);
    }
  }

  lemma {:induction false} LastPrefix(args: seq<Arg>, a: Arg, key: string, lo: nat, hi: nat)
    requires lo <= hi <= |args|
    ensures Last(args + [a], key, lo, hi) == Last(args, key, lo, hi)
    decreases hi
  {
    if lo < hi {
      LastPrefix(args, a, key, lo, hi - 1);
    }
  }

  lemma MarkerAppend(args: seq<Arg>, a: Arg)
    requires a != SPLIT
    ensures Marker(args + [a], a.param) == Appended(args, a.param, Text(a))
  {
    SplitAtAppend(args, a, 0);
    LastPrefix(args, a, a.param, 0, SplitAt(args, 0));
  }

  /**
    A marker appended to the line, in whatever style, wins unless it lands behind `--` and the kernel
    side has one.  Without a value it reads as the empty text.
   */
  lemma AppendedMarkerWins(line: string, p: Printed)
    requires !OddQuotes(line, 0) && Printable(p) && (p.arg.param == STAGE2_KEY || p.arg.param == OVERLAYS_KEY)
    ensures Marker(Args(line + " " + Show(p)), p.arg.param)
            == Appended(Args(line), p.arg.param, if p.arg.value.Some? then p.arg.value.value else "")
  {
    ShowIsOneArg(p);
    ArgsConcat(line, ' ', Show(p));
    MarkerAppend(Args(line), p.arg);
  }

  /** A bare marker fails closed: appended where it counts, it blocks the commit. */
  lemma BareMarkerBlocks(line: string, key: string)
    requires !OddQuotes(line, 0) && (key == STAGE2_KEY || key == OVERLAYS_KEY)
    requires SplitAt(Args(line), 0) == |Args(line)| || Marker(Args(line), key).None?
    ensures !Opens(Args(line + " " + key))
  {
    KeysAreSolid(key);
    AppendedMarkerWins(line, Printed(Arg(key, None), Bare));
    EmptyBlocks(Args(line + " " + key), key);
  }

  predicate KeyChar(c: char) {
    'a' <= c <= 'z' || '0' <= c <= '9' || c == '.'
  }

  predicate KeyText(s: string) {
    forall i :: 0 <= i < |s| ==> KeyChar(s[i])
  }

  lemma KeysAreSolid(key: string)
    requires key == STAGE2_KEY || key == OVERLAYS_KEY
    ensures Printable(Printed(Arg(key, None), Bare))
  {
    assert KeyText("oe5xrx.") && KeyText("stage2") && KeyText("overlays");
    assert STAGE2_KEY == "oe5xrx." + "stage2" && OVERLAYS_KEY == "oe5xrx." + "overlays";
    assert KeyText(key);
    assert forall i :: 0 <= i < |key| ==> KeyChar(key[i]);
  }

  lemma EmptyBlocks(args: seq<Arg>, key: string)
    requires Marker(args, key) == Some("") && (key == STAGE2_KEY || key == OVERLAYS_KEY)
    ensures !Opens(args)
  {
    OpensIff(args);
    NotGoodEmpty();
  }

  lemma NotGoodEmpty()
    ensures !GoodOverlays("")
  {
    OkIffGood("");
  }

  function Appended(args: seq<Arg>, key: string, value: string): Option<string> {
    var n := SplitAt(args, 0);
    if n < |args| && Last(args, key, 0, n).Some? then Last(args, key, 0, n) else Some(value)
  }
}

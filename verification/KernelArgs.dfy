/**
  The kernel command line tokenizer (`_kernel_args`): a reference definition that cuts the line
  into tokens and reads each token's text, the index loop of the source proved against it, and
  its concatenation and round-trip laws.
 */
module KernelArgs {
  import opened Options

  /** `param` or `param=value`; `None` without an equals sign. */
  datatype Arg = Arg(param: string, value: Option<string>)

  /** The kernel's isspace() on single bytes. */
  predicate Blank(c: char) {
    c == ' ' || '\t' <= c <= '\r' || c == '\U{A0}'
  }

  lemma BlankMeans(c: char)
    ensures Blank(c) <==> c in [' ', '\t', '\n', '\U{B}', '\U{C}', '\r', '\U{A0}']
  {
  }

  // --- where the tokens are -------------------------------------------------------------------

  function BlankEnd(s: string, i: nat): (e: nat)
    requires i <= |s|
    ensures i <= e <= |s| && (e < |s| ==> !Blank(s[e]))
    decreases |s| - i
  {
    if i < |s| && Blank(s[i]) then BlankEnd(s, i + 1) else i
  }

  /** The first blank outside quotes. */
  function TokenEnd(s: string, i: nat, inQuote: bool): (e: nat)
    requires i <= |s|
    ensures i <= e <= |s|
    decreases |s| - i
  {
    if i == |s| || (Blank(s[i]) && !inQuote) then i
    else TokenEnd(s, i + 1, inQuote != (s[i] == '"'))
  }

  datatype Cut = Cut(from: nat, to: nat)

  function Cuts(s: string, i: nat): (cs: seq<Cut>)
    requires i <= |s|
    ensures Within(cs, |s|)
    decreases |s| - i
  {
    var a := BlankEnd(s, i);
    if a == |s| then [] else
      var b := TokenEnd(s, a, false);
      [Cut(a, b)] + Cuts(s, b)
  }

  // --- what a token says ------------------------------------------------------------------------

  /** The first `c` in `s`. */
  function Find(s: string, c: char): (r: Option<nat>)
    ensures r.Some? ==> r.value < |s| && s[r.value] == c
    ensures r.Some? ==> forall i :: 0 <= i < r.value ==> s[i] != c
    ensures r.None? ==> forall i :: 0 <= i < |s| ==> s[i] != c
  {
    if s == "" then None
    else if s[0] == c then Some(0)
    else
      match Find(s[1..], c)
      case None => None
      case Some(i) => Some(i + 1)
  }

  predicate EndsQuoted(s: string) {
    s != "" && s[|s| - 1] == '"'
  }

  /** The value text `v` of a token; its last quote goes with its first or with the token's. */
  function Unquote(v: string, quoted: bool): string {
    var from := if v != "" && v[0] == '"' then 1 else 0;
    var to := if EndsQuoted(v) && (quoted || from == 1) then |v| - 1 else |v|;
    v[from..if to < from then from else to]
  }

  /** The token without its opening quote. */
  function Body(token: string): string {
    if token != "" && token[0] == '"' then token[1..] else token
  }

  function ParseBody(body: string, quoted: bool): Arg {
    match Find(body, '=')
    case None => Arg(if quoted && EndsQuoted(body) then body[..|body| - 1] else body, None)
    case Some(e) => Arg(body[..e], Some(Unquote(body[e + 1..], quoted)))
  }

  function ParseToken(token: string): Arg {
    ParseBody(Body(token), token != "" && token[0] == '"')
  }

  predicate Within(cs: seq<Cut>, n: nat) {
    forall k :: 0 <= k < |cs| ==> cs[k].from < cs[k].to <= n
  }

  /** What `read` makes of the texts at the given cuts. */
  function ReadCuts<T>(s: string, cs: seq<Cut>, read: string -> T): (r: seq<T>)
    requires Within(cs, |s|)
    ensures |r| == |cs| && forall k :: 0 <= k < |cs| ==> r[k] == read(s[cs[k].from..cs[k].to])
  {
    seq(|cs|, k requires 0 <= k < |cs| => read(s[cs[k].from..cs[k].to]))
  }

  function Args(s: string): seq<Arg> {
    ReadCuts(s, Cuts(s, 0), ParseToken)
  }

  // --- the source's loop ------------------------------------------------------------------------

  method SkipBlanks(s: string, from: nat) returns (i: nat)
    requires from <= |s|
    ensures i == BlankEnd(s, from)
  {
    i := from;
    while i < |s| && Blank(s[i])
      invariant from <= i <= |s| && BlankEnd(s, from) == BlankEnd(s, i)
    {
      i := i + 1;
    }
  }

  /** Scans the token at `at`: past its end, where its body starts, and its first equals sign. */
  method ScanToken(s: string, at: nat) returns (end: nat, start: nat, equals: Option<nat>)
    requires at < |s| && !Blank(s[at])
    ensures end == TokenEnd(s, at, false) && at < end
    ensures start == (if s[at] == '"' then at + 1 else at) <= end
    ensures match Find(s[start..end], '=')
            case None => equals.None?
            case Some(e) => equals == Some(start + e)
  {
    var inQuote := s[at] == '"';
    end := if inQuote then at + 1 else at;
    start := end;
    equals := None;
    while end < |s| && !(Blank(s[end]) && !inQuote)
      invariant start <= end <= |s| && (end == at ==> !inQuote)
      invariant TokenEnd(s, at, false) == TokenEnd(s, end, inQuote)
      invariant equals.Some? ==>
                  && start <= equals.value < end && s[equals.value] == '='
                  && forall i :: start <= i < equals.value ==> s[i] != '='
      invariant equals.None? ==> forall i :: start <= i < end ==> s[i] != '='
    {
      if equals.None? && s[end] == '=' {
        equals := Some(end);
      }
      if s[end] == '"' {
        inQuote := !inQuote;
      }
      end := end + 1;
    }
    EqualsInSlice(s, start, end, equals);
  }

  lemma EqualsInSlice(s: string, start: nat, end: nat, equals: Option<nat>)
    requires start <= end <= |s|
    requires equals.Some? ==> start <= equals.value < end && s[equals.value] == '='
                              && forall i :: start <= i < equals.value ==> s[i] != '='
    requires equals.None? ==> forall i :: start <= i < end ==> s[i] != '='
    ensures match Find(s[start..end], '=')
            case None => equals.None?
            case Some(e) => equals == Some(start + e)
  {
    var t := s[start..end];
    assert forall i :: 0 <= i < |t| ==> t[i] == s[start + i];
    FirstFound(t, '=', if equals.None? then None else Some(equals.value - start));
  }

  lemma FirstFound(s: string, c: char, r: Option<int>)
    requires r.Some? ==> 0 <= r.value < |s| && s[r.value] == c
                         && forall i :: 0 <= i < r.value ==> s[i] != c
    requires r.None? ==> forall i :: 0 <= i < |s| ==> s[i] != c
    ensures match Find(s, c) case None => r.None? case Some(e) => r == Some(e)
  {
    if Find(s, c).Some? && r.Some? {
      assert !(Find(s, c).value < r.value) && !(r.value < Find(s, c).value);
    }
  }

  /** The value of a token whose text after the equals sign is `s[from..end]`. */
  method BuildValue(s: string, from: nat, end: nat, quoted: bool) returns (value: string)
    requires 0 < from <= end <= |s| && s[from - 1] == '='
    ensures value == Unquote(s[from..end], quoted)
  {
    var vStart, vEnd := from, end;
    if vStart < end && s[vStart] == '"' {
      vStart := vStart + 1;
      if s[end - 1] == '"' {
        vEnd := end - 1;
      }
    }
    if quoted && s[end - 1] == '"' {
      vEnd := if vEnd < end - 1 then vEnd else end - 1;
    }
    var stop := if vEnd < vStart then vStart else vEnd;
    value := s[vStart..stop];
    FlagText(s, from, end);
    SliceOfSlice(s, from, end, vStart - from, stop - from);
  }

  /** The argument of a token's body `s[start..end]`, by index arithmetic on the whole line. */
  method BuildArg(s: string, start: nat, end: nat, quoted: bool, equals: Option<nat>) returns (arg: Arg)
    requires start <= end <= |s|
    requires match Find(s[start..end], '=')
             case None => equals.None?
             case Some(e) => equals == Some(start + e)
    ensures arg == ParseBody(s[start..end], quoted)
  {
    if equals.None? {
      var trailing := quoted && end > start && s[end - 1] == '"';
      arg := Arg(s[start..if trailing then end - 1 else end], None);
      FlagText(s, start, end);
    } else {
      var value := BuildValue(s, equals.value + 1, end, quoted);
      arg := Arg(s[start..equals.value], Some(value));
      SliceOfSlice(s, start, end, 0, equals.value - start);
      SliceOfSlice(s, start, end, equals.value - start + 1, end - start);
    }
  }

  lemma SliceOfSlice(s: string, start: nat, end: nat, i: nat, j: nat)
    requires start <= end <= |s| && i <= j <= end - start
    ensures s[start..end][i..j] == s[start + i..start + j]
  {
    var a, b := s[start..end][i..j], s[start + i..start + j];
    assert |a| == |b| && forall k :: 0 <= k < |a| ==> a[k] == b[k];
  }

  lemma FlagText(s: string, start: nat, end: nat)
    requires start <= end <= |s|
    ensures EndsQuoted(s[start..end]) <==> start < end && s[end - 1] == '"'
    ensures start < end ==> s[start..end][..end - start - 1] == s[start..end - 1]
  {
  }

  /** One round of the generator: the argument at `at` and where the next one starts. */
  method NextArg(s: string, at: nat) returns (arg: Arg, next: nat)
    requires at < |s| && !Blank(s[at])
    ensures arg == ParseToken(s[at..TokenEnd(s, at, false)])
    ensures next == BlankEnd(s, TokenEnd(s, at, false))
  {
    var end, start, equals := ScanToken(s, at);
    arg := BuildArg(s, start, end, s[at] == '"', equals);
    assert Body(s[at..end]) == s[start..end];
    next := SkipBlanks(s, end);
  }

  method Tokenize(s: string) returns (args: seq<Arg>)
    ensures args == Args(s)
  {
    args := [];
    var i := SkipBlanks(s, 0);
    ghost var done: seq<Cut> := [];
    assert Cuts(s, 0) == done + Cuts(s, i);
    while i < |s|
      invariant i <= |s| && (i < |s| ==> !Blank(s[i]))
      invariant Reads(s, done, i, args, ParseToken)
    {
      ghost var at := i;
      var arg;
      arg, i := NextArg(s, i);
      ghost var end := TokenEnd(s, at, false);
      ReadsNext(s, done, at, end, i, args, ParseToken);
      done := done + [Cut(at, end)];
      args := args + [arg];
    }
    ReadsAll(s, done, args);
  }

  /** `items` are what `read` makes of the cuts `done`, and the rest of the line starts at `i`. */
  ghost predicate Reads<T>(s: string, done: seq<Cut>, i: nat, items: seq<T>, read: string -> T)
    requires i <= |s|
  {
    Cuts(s, 0) == done + Cuts(s, i) && Within(done, |s|) && items == ReadCuts(s, done, read)
  }

  lemma Regroup<T>(all: seq<T>, done: seq<T>, c: T, tail: seq<T>)
    requires all == done + ([c] + tail)
    ensures all == (done + [c]) + tail
  {
  }

  lemma ReadsNext<T>(s: string, done: seq<Cut>, at: nat, end: nat, next: nat, items: seq<T>, read: string -> T)
    requires at < |s| && !Blank(s[at]) && end == TokenEnd(s, at, false) && next == BlankEnd(s, end)
    requires Reads(s, done, at, items, read)
    ensures Reads(s, done + [Cut(at, end)], next, items + [read(s[at..end])], read)
  {
    CutsNext(s, at, end, next);
    Regroup(Cuts(s, 0), done, Cut(at, end), Cuts(s, next));
    ReadCutsAppend(s, done, Cut(at, end), read);
  }

  lemma ReadsAll(s: string, done: seq<Cut>, args: seq<Arg>)
    requires Reads(s, done, |s|, args, ParseToken)
    ensures args == Args(s)
  {
    assert Cuts(s, |s|) == [] && Cuts(s, 0) == done;
  }

  lemma CutsNext(s: string, at: nat, end: nat, next: nat)
    requires at < |s| && !Blank(s[at]) && end == TokenEnd(s, at, false) && next == BlankEnd(s, end)
    ensures Cuts(s, at) == [Cut(at, end)] + Cuts(s, next)
  {
    assert BlankEnd(s, next) == next;
  }

  lemma ReadCutsAppend<T>(s: string, cs: seq<Cut>, c: Cut, read: string -> T)
    requires Within(cs, |s|) && c.from < c.to <= |s|
    ensures ReadCuts(s, cs + [c], read) == ReadCuts(s, cs, read) + [read(s[c.from..c.to])]
  {
  }

  // --- concatenation ------------------------------------------------------------------------------

  /** Whether `s` holds an odd number of quotes from `i` on. */
  function OddQuotes(s: string, i: nat): bool
    requires i <= |s|
    decreases |s| - i
  {
    i < |s| && (OddQuotes(s, i + 1) != (s[i] == '"'))
  }

  lemma {:induction false} BlankEndPrefix(s: string, w: string, i: nat)
    requires i <= |s|
    ensures var a := BlankEnd(s, i);
            BlankEnd(s + w, i) == (if a < |s| then a else BlankEnd(s + w, |s|))
            && OddQuotes(s, a) == OddQuotes(s, i)
    decreases |s| - i
  {
    if i < |s| && Blank(s[i]) {
      BlankEndPrefix(s, w, i + 1);
    }
  }

  /** A token ends inside `s`, outside its quotes, or runs on into what follows. */
  lemma {:induction false} TokenEndPrefix(s: string, w: string, i: nat, q: bool)
    requires i <= |s|
    ensures var b := TokenEnd(s, i, q);
            if b < |s| then TokenEnd(s + w, i, q) == b && OddQuotes(s, b) == (OddQuotes(s, i) != q)
            else TokenEnd(s + w, i, q) == TokenEnd(s + w, |s|, q != OddQuotes(s, i))
    decreases |s| - i
  {
    if i < |s| && (q || !Blank(s[i])) {
      TokenEndPrefix(s, w, i + 1, q != (s[i] == '"'));
    }
  }

  /** As long as no quote is open at its end, `s` keeps its cuts when a blank follows. */
  lemma {:induction false} CutsPrefix(s: string, w: string, i: nat)
    requires i <= |s| && !OddQuotes(s, i) && w != "" && Blank(w[0])
    ensures Cuts(s + w, i) == Cuts(s, i) + Cuts(s + w, |s|)
    decreases |s| - i
  {
    var a := BlankEnd(s, i);
    BlankEndPrefix(s, w, i);
    if a < |s| {
      var b := TokenEnd(s, a, false);
      TokenEndPrefix(s, w, a, false);
      assert TokenEnd(s + w, a, false) == b;
      if b < |s| {
        CutsPrefix(s, w, b);
      }
    }
  }

  /** With a quote open at its end, the last token of `s` swallows the blank that follows. */
  lemma {:induction false} CutsSwallow(s: string, b: char, i: nat)
    requires i <= |s| && OddQuotes(s, i) && Blank(b)
    ensures var cs, cs' := Cuts(s, i), Cuts(s + [b], i);
            && |cs| == |cs'| > 0 && cs[|cs| - 1].to == |s|
            && cs'[|cs| - 1] == Cut(cs[|cs| - 1].from, |s| + 1)
    decreases |s| - i
  {
    var a := BlankEnd(s, i);
    BlankEndPrefix(s, [b], i);
    var e := TokenEnd(s, a, false);
    TokenEndPrefix(s, [b], a, false);
    if e < |s| {
      CutsSwallow(s, b, e);
    } else {
      assert TokenEnd(s + [b], a, false) == |s| + 1;
      assert Cuts(s + [b], a) == [Cut(a, |s| + 1)];
    }
  }

  lemma {:induction false} BlankEndShift(s: string, w: string, j: nat)
    requires j <= |w|
    ensures BlankEnd(s + w, |s| + j) == |s| + BlankEnd(w, j)
    decreases |w| - j
  {
    if j < |w| && Blank(w[j]) {
      BlankEndShift(s, w, j + 1);
    }
  }

  lemma {:induction false} TokenEndShift(s: string, w: string, j: nat, q: bool)
    requires j <= |w|
    ensures TokenEnd(s + w, |s| + j, q) == |s| + TokenEnd(w, j, q)
    decreases |w| - j
  {
    if j < |w| && (q || !Blank(w[j])) {
      TokenEndShift(s, w, j + 1, q != (w[j] == '"'));
    }
  }

  function Shift(cs: seq<Cut>, n: nat): (r: seq<Cut>)
    ensures |r| == |cs| && forall k :: 0 <= k < |cs| ==> r[k] == Cut(n + cs[k].from, n + cs[k].to)
  {
    seq(|cs|, k requires 0 <= k < |cs| => Cut(n + cs[k].from, n + cs[k].to))
  }

  lemma {:induction false} CutsShift(s: string, w: string, j: nat)
    requires j <= |w|
    ensures Cuts(s + w, |s| + j) == Shift(Cuts(w, j), |s|)
    decreases |w| - j
  {
    BlankEndShift(s, w, j);
    var a := BlankEnd(w, j);
    if a < |w| {
      var b := TokenEnd(w, a, false);
      TokenEndShift(s, w, a, false);
      CutsShift(s, w, b);
      ShiftCons(Cut(a, b), Cuts(w, b), |s|);
    }
  }

  lemma ShiftCons(c: Cut, cs: seq<Cut>, n: nat)
    ensures Shift([c] + cs, n) == [Cut(n + c.from, n + c.to)] + Shift(cs, n)
  {
  }

  /** Cuts of `s` followed by shifted cuts of `w` read what they read apart. */
  lemma ReadJoined<T>(s: string, w: string, cs: seq<Cut>, ds: seq<Cut>, all: seq<Cut>, read: string -> T)
    requires Within(cs, |s|) && Within(ds, |w|) && Within(all, |s + w|) && all == cs + Shift(ds, |s|)
    ensures ReadCuts(s + w, all, read) == ReadCuts(s, cs, read) + ReadCuts(w, ds, read)
  {
    forall k | 0 <= k < |all|
      ensures ReadCuts(s + w, all, read)[k] == (ReadCuts(s, cs, read) + ReadCuts(w, ds, read))[k]
    {
      var c := all[k];
      if k < |cs| {
        assert (s + w)[c.from..c.to] == s[c.from..c.to];
      } else {
        var d := ds[k - |cs|];
        assert (s + w)[c.from..c.to] == w[d.from..d.to];
      }
    }
  }

  /** Appending a line that starts with a blank appends its arguments, if no quote is open. */
  lemma ArgsAppend(s: string, w: string)
    requires w != "" && Blank(w[0]) && !OddQuotes(s, 0)
    ensures Args(s + w) == Args(s) + Args(w)
  {
    CutsPrefix(s, w, 0);
    CutsShift(s, w, 0);
    ReadJoined(s, w, Cuts(s, 0), Cuts(w, 0), Cuts(s + w, 0), ParseToken);
  }

  lemma ArgsSkipBlank(b: char, t: string)
    requires Blank(b)
    ensures Args([b] + t) == Args(t)
  {
    var w := [b] + t;
    CutsShift([b], t, 0);
    assert BlankEnd(w, 0) == BlankEnd(w, 1);
    assert Cuts(w, 0) == Cuts(w, 1);
    assert Cuts(w, 0) == [] + Shift(Cuts(t, 0), 1);
    ReadJoined([b], t, [], Cuts(t, 0), Cuts(w, 0), ParseToken);
  }

  lemma ArgsConcat(s: string, b: char, t: string)
    requires Blank(b) && !OddQuotes(s, 0)
    ensures Args(s + [b] + t) == Args(s) + Args(t)
  {
    assert s + [b] + t == s + ([b] + t);
    ArgsAppend(s, [b] + t);
    ArgsSkipBlank(b, t);
  }

  // --- the law fails exactly when a quote is open ---------------------------------------------------

  lemma EqualsIsFirst(u: string, b: char)
    requires b != '='
    ensures Find(u + [b], '=') == Find(u, '=')
  {
    var f, g := Find(u, '='), Find(u + [b], '=');
    if f.Some? {
      assert (u + [b])[f.value] == '=';
      assert !(f.value < g.value) && !(g.value < f.value);
    }
  }

  lemma UnquoteIsLonger(v: string, b: char, quoted: bool)
    requires Blank(b)
    ensures |Unquote(v + [b], quoted)| > |Unquote(v, quoted)|
  {
    assert !EndsQuoted(v + [b]);
  }

  /** A token that ends in a blank is read in full. */
  lemma SwallowedIsLonger(body: string, b: char, quoted: bool)
    requires Blank(b)
    ensures ParseBody(body + [b], quoted) != ParseBody(body, quoted)
  {
    EqualsIsFirst(body, b);
    assert !EndsQuoted(body + [b]);
    var e := Find(body, '=');
    if e.Some? {
      var v := body[e.value + 1..];
      assert (body + [b])[e.value + 1..] == v + [b];
      UnquoteIsLonger(v, b, quoted);
    }
  }

  lemma LastRead<T>(s: string, cs: seq<Cut>, read: string -> T)
    requires Within(cs, |s|) && cs != []
    ensures var c := cs[|cs| - 1];
            ReadCuts(s, cs, read)[|cs| - 1] == read(s[c.from..c.to])
  {
  }

  lemma SwallowedToken(u: string, b: char)
    requires u != "" && Blank(b)
    ensures ParseToken(u + [b]) != ParseToken(u)
  {
    SwallowedIsLonger(Body(u), b, u[0] == '"');
    assert Body(u + [b]) == Body(u) + [b];
  }

  /** An open quote makes the arguments of `s` and `s` with a blank after it differ. */
  lemma OpenQuoteSwallows(s: string, b: char)
    requires Blank(b) && OddQuotes(s, 0)
    ensures Args(s + [b]) != Args(s)
  {
    CutsSwallow(s, b, 0);
    var cs, cs' := Cuts(s, 0), Cuts(s + [b], 0);
    var c := cs[|cs| - 1];
    var u := s[c.from..c.to];
    assert (s + [b])[c.from..|s| + 1] == u + [b];
    LastRead(s, cs, ParseToken);
    LastRead(s + [b], cs', ParseToken);
    SwallowedToken(u, b);
  }

  /** The concatenation law holds of `s` for every continuation if and only if no quote is open. */
  lemma ConcatIffEvenQuotes(s: string, b: char)
    requires Blank(b)
    ensures (forall t :: Args(s + [b] + t) == Args(s) + Args(t)) <==> !OddQuotes(s, 0)
  {
    if OddQuotes(s, 0) {
      OpenQuoteSwallows(s, b);
      assert s + [b] + "" == s + [b] && Args("") == [];
      assert Args(s + [b] + "") != Args(s) + Args("");
    } else {
      forall t
        ensures Args(s + [b] + t) == Args(s) + Args(t)
      {
        ArgsConcat(s, b, t);
      }
    }
  }

  // --- the cuts, told from the quotes ------------------------------------------------------------------

  /** Whether position `i` is inside quotes, if position `from` is exactly when `q`. */
  function QuotedAt(s: string, from: nat, i: nat, q: bool): bool
    requires from <= i <= |s|
    decreases i - from
  {
    if from == i then q else QuotedAt(s, from + 1, i, q != (s[from] == '"'))
  }

  lemma {:induction false} QuotedOn(s: string, from: nat, mid: nat, i: nat, q: bool)
    requires from <= mid <= i <= |s|
    ensures QuotedAt(s, from, i, q) == QuotedAt(s, mid, i, QuotedAt(s, from, mid, q))
    decreases mid - from
  {
    if from < mid {
      QuotedOn(s, from + 1, mid, i, q != (s[from] == '"'));
    }
  }

  lemma {:induction false} BlanksSkipped(s: string, from: nat, i: nat)
    requires from <= |s| && from <= i <= BlankEnd(s, from)
    ensures !QuotedAt(s, from, i, false) && (i < BlankEnd(s, from) ==> Blank(s[i]))
    decreases i - from
  {
    if from < i {
      BlanksSkipped(s, from + 1, i);
    }
  }

  lemma {:induction false} TokenTaken(s: string, from: nat, q: bool, i: nat)
    requires from <= |s| && from <= i <= TokenEnd(s, from, q)
    ensures i < TokenEnd(s, from, q) ==> !Blank(s[i]) || QuotedAt(s, from, i, q)
    ensures i == TokenEnd(s, from, q) < |s| ==> Blank(s[i]) && !QuotedAt(s, from, i, q)
    decreases i - from
  {
    if from < i {
      TokenTaken(s, from + 1, q != (s[from] == '"'), i);
    }
  }

  ghost predicate Covered(cs: seq<Cut>, i: nat) {
    exists k :: 0 <= k < |cs| && cs[k].from <= i < cs[k].to
  }

  predicate Apart(cs: seq<Cut>) {
    forall k :: 0 <= k < |cs| - 1 ==> cs[k].to < cs[k + 1].from
  }

  lemma CoveredCons(c: Cut, cs: seq<Cut>, i: nat)
    ensures Covered([c] + cs, i) <==> c.from <= i < c.to || Covered(cs, i)
  {
    if c.from <= i < c.to {
      assert ([c] + cs)[0] == c;
    }
    if k :| 0 <= k < |cs| && cs[k].from <= i < cs[k].to {
      assert ([c] + cs)[k + 1] == cs[k];
    }
  }

  lemma {:induction false} CutsStartAt(s: string, from: nat, k: nat)
    requires from <= |s| && k < |Cuts(s, from)|
    ensures BlankEnd(s, from) <= Cuts(s, from)[k].from
    decreases |s| - from
  {
    if k > 0 {
      var b := TokenEnd(s, BlankEnd(s, from), false);
      CutsStartAt(s, b, k - 1);
      assert Cuts(s, from)[k] == Cuts(s, b)[k - 1];
    }
  }

  lemma NotBefore(s: string, from: nat, i: nat)
    requires from <= |s| && i < BlankEnd(s, from)
    ensures !Covered(Cuts(s, from), i)
  {
    forall k | 0 <= k < |Cuts(s, from)|
      ensures !(Cuts(s, from)[k].from <= i)
    {
      CutsStartAt(s, from, k);
    }
  }

  /**
    A position belongs to a token if and only if it is no blank or is inside quotes.  As tokens have a
    position between them that does not, this says where each begins and ends.
   */
  lemma {:induction false} CutsCover(s: string, from: nat, i: nat)
    requires from <= i < |s|
    ensures Covered(Cuts(s, from), i) <==> !Blank(s[i]) || QuotedAt(s, from, i, false)
    decreases |s| - from
  {
    var a := BlankEnd(s, from);
    if i < a {
      BlanksSkipped(s, from, i);
      NotBefore(s, from, i);
    } else {
      BlanksSkipped(s, from, a);
      QuotedOn(s, from, a, i, false);
      var b := TokenEnd(s, a, false);
      CoveredCons(Cut(a, b), Cuts(s, b), i);
      if i < b {
        TokenTaken(s, a, false, i);
      } else {
        TokenTaken(s, a, false, b);
        QuotedOn(s, a, b, i, false);
        CutsCover(s, b, i);
      }
    }
  }

  lemma {:induction false} CutsApart(s: string, from: nat)
    requires from <= |s|
    ensures Apart(Cuts(s, from))
    decreases |s| - from
  {
    var a := BlankEnd(s, from);
    if a < |s| {
      var b := TokenEnd(s, a, false);
      CutsApart(s, b);
      TokenTaken(s, a, false, b);
      if Cuts(s, b) != [] {
        CutsStartAt(s, b, 0);
        assert Cuts(s, from)[1..] == Cuts(s, b) && b < BlankEnd(s, b);
      }
      assert forall k :: 0 < k < |Cuts(s, from)| ==> Cuts(s, from)[k] == Cuts(s, b)[k - 1];
    }
  }

  // --- what every token says ------------------------------------------------------------------------------

  predicate StartsQuoted(s: string) {
    s != "" && s[0] == '"'
  }

  const Q := "\""

  lemma UnquoteForms(v: string, quoted: bool)
    ensures Unquote(Q + v + Q, quoted) == v
    ensures !EndsQuoted(v) ==> Unquote(Q + v, quoted) == v
    ensures !StartsQuoted(v) ==> Unquote(v, false) == v && Unquote(v + Q, true) == v
    ensures !StartsQuoted(v) && !EndsQuoted(v) ==> Unquote(v, true) == v
  {
    assert (Q + v + Q)[1..|v| + 1] == v;
    assert (Q + v)[1..] == v && (v != "" ==> (Q + v)[|v|] == v[|v| - 1]);
    assert (v + Q)[..|v|] == v;
  }

  lemma SplitsAtEquals(param: string, v: string)
    requires '=' !in param
    ensures Find(param, '=').None? && Find(param + "=" + v, '=') == Some(|param|)
    ensures var t := param + "=" + v; t[..|param|] == param && t[|param| + 1..] == v
  {
    FirstFound(param, '=', None);
    var t := param + "=" + v;
    assert t[|param|] == '=';
    FirstFound(t, '=', Some(|param|));
  }

  lemma PlainToken(param: string, v: string)
    requires !StartsQuoted(param) && '=' !in param
    ensures ParseToken(param) == Arg(param, None)
    ensures ParseToken(param + "=" + v) == Arg(param, Some(Unquote(v, false)))
  {
    SplitsAtEquals(param, v);
    assert !StartsQuoted(param + "=" + v);
  }

  lemma QuotedToken(param: string, v: string)
    requires '=' !in param
    ensures ParseToken(Q + param) == Arg(if EndsQuoted(param) then param[..|param| - 1] else param, None)
    ensures ParseToken(Q + (param + "=" + v)) == Arg(param, Some(Unquote(v, true)))
  {
    SplitsAtEquals(param, v);
    assert Body(Q + param) == param && Body(Q + (param + "=" + v)) == param + "=" + v;
  }

  /** An unquoted value is taken as it is, with a trailing quote that has no leading one. */
  lemma PlainValueReads(param: string, v: string)
    requires !StartsQuoted(param) && '=' !in param && !StartsQuoted(v)
    ensures ParseToken(param) == Arg(param, None) && ParseToken(param + "=" + v) == Arg(param, Some(v))
  {
    PlainToken(param, v);
    UnquoteForms(v, false);
  }

  /** A value's leading quote goes, and its trailing one with it if there is one. */
  lemma QuotedValueReads(param: string, v: string)
    requires !StartsQuoted(param) && '=' !in param
    ensures ParseToken(param + "=" + (Q + v + Q)) == Arg(param, Some(v))
    ensures !EndsQuoted(v) ==> ParseToken(param + "=" + (Q + v)) == Arg(param, Some(v))
  {
    PlainToken(param, Q + v + Q);
    PlainToken(param, Q + v);
    UnquoteForms(v, false);
  }

  /** Of a token in quotes the leading quote goes, and its trailing one if there is one. */
  lemma WholeTokenReads(param: string, v: string)
    requires '=' !in param
    ensures ParseToken(Q + (param + Q)) == Arg(param, None)
    ensures !EndsQuoted(param) ==> ParseToken(Q + param) == Arg(param, None)
    ensures !StartsQuoted(v) ==> ParseToken(Q + (param + "=" + (v + Q))) == Arg(param, Some(v))
    ensures !StartsQuoted(v) && !EndsQuoted(v) ==> ParseToken(Q + (param + "=" + v)) == Arg(param, Some(v))
  {
    QuotedToken(param + Q, v);
    assert (param + Q)[..|param|] == param;
    QuotedToken(param, v);
    QuotedToken(param, v + Q);
    UnquoteForms(v, true);
  }

  /** The value's own quotes go inside a token in quotes too, and only one pair does. */
  lemma WholeTokenQuotedValueReads(param: string, v: string)
    requires '=' !in param
    ensures ParseToken(Q + (param + "=" + (Q + v + Q))) == Arg(param, Some(v))
    ensures !EndsQuoted(v) ==> ParseToken(Q + (param + "=" + (Q + v))) == Arg(param, Some(v))
  {
    QuotedToken(param, Q + v + Q);
    QuotedToken(param, Q + v);
    UnquoteForms(v, true);
  }

  // --- round trip ---------------------------------------------------------------------------------

  /** Without quotes, with the value in quotes, or with the whole argument in quotes. */
  datatype Style = Bare | QuotedValue | QuotedWhole

  datatype Printed = Printed(arg: Arg, style: Style)

  predicate Solid(s: string) {
    forall i :: 0 <= i < |s| ==> !Blank(s[i])
  }

  /** What each style can carry: no quotes, no equals sign in the param, and blanks only inside quotes. */
  predicate Printable(p: Printed) {
    && '"' !in p.arg.param && '=' !in p.arg.param
    && (p.arg.value.Some? ==> '"' !in p.arg.value.value)
    && (!p.style.QuotedWhole? ==> p.arg.param != "" && Solid(p.arg.param))
    && (p.style.Bare? && p.arg.value.Some? ==> Solid(p.arg.value.value))
  }

  function Show(p: Printed): string {
    var Arg(param, value) := p.arg;
    match p.style
    case Bare => if value.None? then param else param + "=" + value.value
    case QuotedValue => if value.None? then param else param + "=" + (Q + value.value + Q)
    case QuotedWhole => if value.None? then Q + (param + Q) else Q + (param + "=" + (value.value + Q))
  }

  /** The arguments joined by `blank`. */
  function ShowAll(ps: seq<Printed>, blank: char): string {
    if ps == [] then "" else if |ps| == 1 then Show(ps[0])
    else Show(ps[0]) + [blank] + ShowAll(ps[1..], blank)
  }

  /** A stretch without quotes, and without blanks unless inside quotes, is part of one token. */
  lemma {:induction false} TokenRuns(s: string, i: nat, j: nat, q: bool)
    requires i <= j <= |s|
    requires forall k :: i <= k < j ==> s[k] != '"' && (q || !Blank(s[k]))
    ensures TokenEnd(s, i, q) == TokenEnd(s, j, q) && OddQuotes(s, i) == OddQuotes(s, j)
    decreases j - i
  {
    if i < j {
      TokenRuns(s, i + 1, j, q);
    }
  }

  /** Text without quotes and blanks, and then text in quotes, is one token. */
  lemma OneToken(head: string, inner: string)
    requires '"' !in head && Solid(head) && '"' !in inner
    ensures TokenEnd(head, 0, false) == |head| && !OddQuotes(head, 0)
    ensures var s := head + (Q + inner + Q); TokenEnd(s, 0, false) == |s| && !OddQuotes(s, 0)
  {
    TokenRuns(head, 0, |head|, false);
    var s, n := head + (Q + inner + Q), |head|;
    assert forall k :: 0 <= k < n ==> s[k] == head[k];
    TokenRuns(s, 0, n, false);
    assert s[n] == '"' && s[|s| - 1] == '"';
    assert forall k :: n + 1 <= k < |s| - 1 ==> s[k] == inner[k - n - 1];
    TokenRuns(s, n + 1, |s| - 1, true);
  }

  lemma ShowIsOneToken(p: Printed)
    requires Printable(p)
    ensures var s := Show(p); s != "" && !Blank(s[0]) && TokenEnd(s, 0, false) == |s| && !OddQuotes(s, 0)
  {
    var Arg(param, value) := p.arg;
    if p.style.QuotedWhole? {
      var inner := if value.None? then param else param + "=" + value.value;
      OneToken("", inner);
      assert "" + (Q + inner + Q) == Show(p);
    } else if value.None? {
      OneToken(param, "");
    } else if p.style.Bare? {
      OneToken(param + "=" + value.value, "");
    } else {
      OneToken(param + "=", value.value);
    }
  }

  lemma ShowParses(p: Printed)
    requires Printable(p)
    ensures ParseToken(Show(p)) == p.arg
  {
    var Arg(param, value) := p.arg;
    var v := if value.None? then "" else value.value;
    match p.style
    case Bare => PlainValueReads(param, v);
    case QuotedValue =>
      PlainValueReads(param, v);
      QuotedValueReads(param, v);
    case QuotedWhole => WholeTokenReads(param, v);
  }

  lemma ShowIsOneArg(p: Printed)
    requires Printable(p)
    ensures Args(Show(p)) == [p.arg]
  {
    var s := Show(p);
    ShowIsOneToken(p);
    ShowParses(p);
    assert Cuts(s, 0) == [Cut(0, |s|)] && s[0..|s|] == s;
  }

  /**
    Printing any list of arguments, each in any style that can carry it, joined by any blank, and
    tokenizing it gives the list back.
   */
  lemma {:induction false} PrintRoundTrip(ps: seq<Printed>, blank: char)
    requires Blank(blank) && forall k :: 0 <= k < |ps| ==> Printable(ps[k])
    ensures var args := Args(ShowAll(ps, blank));
            |args| == |ps| && forall k :: 0 <= k < |ps| ==> args[k] == ps[k].arg
  {
    if |ps| == 1 {
      ShowIsOneArg(ps[0]);
    } else if |ps| > 1 {
      ShowIsOneToken(ps[0]);
      ShowIsOneArg(ps[0]);
      PrintRoundTrip(ps[1..], blank);
      ArgsConcat(Show(ps[0]), blank, ShowAll(ps[1..], blank));
    }
  }
}

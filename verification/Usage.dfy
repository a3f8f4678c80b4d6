/**
 Reading token usage out of an LLM response: the line scanner for event streams and the reader that
 hands the bytes through unchanged while feeding it, whatever pieces the bytes arrive in.
 JSON decoding and white-space trimming are parameters.
 */
module Usage {
  import opened Options

  newtype byte = x: int | 0 <= x < 256

  const NL: byte := 10
  const CR: byte := 13
  const DATA: seq<byte> := [100, 97, 116, 97, 58]             // data:
  const DONE: seq<byte> := [91, 68, 79, 78, 69, 93]           // [DONE]

  // ---------------------------------------------------------------- usage on the wire

  datatype Wire = Wire(prompt: int, completion: int, input: int, output: int, total: int)

  datatype Tokens = Tokens(prompt: int, completion: int, total: int)

  const NO_TOKENS := Tokens(0, 0, 0)

  /** Both field families, of which one is zero; an absent total is the sum. An all-zero object is no usage. */
  function ToUsage(w: Wire): Option<Tokens> {
    if w == Wire(0, 0, 0, 0, 0) then None
    else
      var p, c := w.prompt + w.input, w.completion + w.output;
      Some(Tokens(p, c, if w.total == 0 then p + c else w.total))
  }

  datatype Frame = Frame(model: string, usage: Wire, kind: string, responseModel: string, responseUsage: Wire)

  datatype Json = Json(trim: seq<byte> -> seq<byte>, decode: seq<byte> -> Option<Frame>)

  // ---------------------------------------------------------------- lines

  /** The first newline, or the length if there is none. */
  function FirstNl(bs: seq<byte>): (n: nat)
    ensures n <= |bs| && (n < |bs| ==> bs[n] == NL)
    ensures forall k | 0 <= k < n :: bs[k] != NL
  {
    if bs == [] || bs[0] == NL then 0 else 1 + FirstNl(bs[1..])
  }

  /** The complete lines, without their newline. */
  function Lines(bs: seq<byte>): seq<seq<byte>>
    decreases |bs|
  {
    var n := FirstNl(bs);
    if n == |bs| then [] else [bs[..n]] + Lines(bs[n + 1..])
  }

  /** What follows the last newline. */
  function Tail(bs: seq<byte>): seq<byte>
    decreases |bs|
  {
    var n := FirstNl(bs);
    if n == |bs| then bs else Tail(bs[n + 1..])
  }

  lemma {:induction false} FirstNlConcat(a: seq<byte>, b: seq<byte>)
    ensures FirstNl(a) < |a| ==> FirstNl(a + b) == FirstNl(a)
  {
    if a != [] && a[0] != NL {
      assert (a + b)[1..] == a[1..] + b;
      FirstNlConcat(a[1..], b);
    }
  }

  /** Splitting goes on from the tail: the lines of `a + b` are those of `a`, then those of its tail and `b`. */
  lemma {:induction false} SplitGoesOn(a: seq<byte>, b: seq<byte>)
    ensures Lines(a + b) == Lines(a) + Lines(Tail(a) + b)
    ensures Tail(a + b) == Tail(Tail(a) + b)
    decreases |a|
  {
    hide FirstNl, Lines, Tail;
    var n := FirstNl(a);
    FirstLine(a);
    if n < |a| {
      FirstNlConcat(a, b);
      FirstLine(a + b);
      assert (a + b)[n + 1..] == a[n + 1..] + b && (a + b)[..n] == a[..n];
      SplitGoesOn(a[n + 1..], b);
    }
  }

  function Rejoined(lines: seq<seq<byte>>): seq<byte> {
    if lines == [] then [] else lines[0] + ([NL] + Rejoined(lines[1..]))
  }

  /** Splitting loses nothing: the lines with a newline each, and the tail, are the bytes. */
  lemma {:induction false} SplitRejoins(bs: seq<byte>)
    ensures Rejoined(Lines(bs)) + Tail(bs) == bs
    ensures forall line | line in Lines(bs) :: NL !in line
    decreases |bs|
  {
    hide Lines, Tail;
    var n := FirstNl(bs);
    FirstLine(bs);
    if n < |bs| {
      var rest := bs[n + 1..];
      SplitRejoins(rest);
      assert Lines(bs)[1..] == Lines(rest);
      assert bs == bs[..n] + ([NL] + rest);
      Rejoins(bs[..n], Rejoined(Lines(rest)), Tail(rest));
    }
  }

  lemma Rejoins(line: seq<byte>, lines: seq<byte>, tail: seq<byte>)
    ensures (line + ([NL] + lines)) + tail == line + ([NL] + (lines + tail))
  {
  }

  lemma {:induction false} TailHasNoNl(bs: seq<byte>)
    ensures NL !in Tail(bs)
    ensures Lines(Tail(bs)) == [] && Tail(Tail(bs)) == Tail(bs)
    decreases |bs|
  {
    var n := FirstNl(bs);
    if n < |bs| { TailHasNoNl(bs[n + 1..]); } else { assert bs[..n] == bs; }
  }

  // ---------------------------------------------------------------- the scanner

  datatype Scan = Scan(usage: Tokens, found: bool, upstream: string)

  const FRESH := Scan(NO_TOKENS, false, "")

  /** Line ends are cut off: every trailing carriage return and newline. */
  function TrimEol(line: seq<byte>): seq<byte> {
    if line != [] && (line[|line| - 1] == NL || line[|line| - 1] == CR) then TrimEol(line[..|line| - 1]) else line
  }

  /** It is a prefix, does not end in either, and only those are cut off. */
  lemma {:induction false} TrimmedLine(line: seq<byte>)
    ensures
      var t := TrimEol(line);
      && t <= line && (t == [] || t[|t| - 1] !in {NL, CR})
      && forall k | |t| <= k < |line| :: line[k] in {NL, CR}
    decreases |line|
  {
    if line != [] && line[|line| - 1] in {NL, CR} {
      TrimmedLine(line[..|line| - 1]);
    }
  }

  function FrameOf(j: Json, line: seq<byte>): Option<Frame> {
    if !(DATA <= line) then None
    else
      var payload := j.trim(line[|DATA|..]);
      if payload == [] || payload == DONE then None else j.decode(payload)
  }

  /** The usage a frame carries: at the top for chat, inside the response of a completion event otherwise. */
  function UsageOfFrame(f: Frame): Option<Tokens> {
    if ToUsage(f.usage).Some? then ToUsage(f.usage)
    else if f.kind == "response.completed" then ToUsage(f.responseUsage)
    else None
  }

  function UsageOf(j: Json, line: seq<byte>): Option<Tokens> {
    match FrameOf(j, line)
    case None => None
    case Some(f) => UsageOfFrame(f)
  }

  function ModelAfter(j: Json, line: seq<byte>, upstream: string): string {
    match FrameOf(j, line)
    case None => upstream
    case Some(f) =>
      if ToUsage(f.usage).None? && UsageOfFrame(f).Some? && f.responseModel != "" then f.responseModel
      else if f.model != "" then f.model
      else upstream
  }

  function Fed(j: Json, sc: Scan, line: seq<byte>): Scan {
    var u := UsageOf(j, line);
    Scan(if u.Some? then u.value else sc.usage, sc.found || u.Some?, ModelAfter(j, line, sc.upstream))
  }

  /** The scanner after the lines, in order. */
  function Scanned(j: Json, lines: seq<seq<byte>>): Scan {
    if lines == [] then FRESH else Fed(j, Scanned(j, lines[..|lines| - 1]), TrimEol(lines[|lines| - 1]))
  }

  /** What is found is exactly the usage of the last line that carries one. */
  lemma {:induction false} ScannedIsLastUsage(j: Json, lines: seq<seq<byte>>)
    ensures Scanned(j, lines).found <==> exists k :: 0 <= k < |lines| && UsageOf(j, TrimEol(lines[k])).Some?
    ensures forall k | 0 <= k < |lines| && UsageOf(j, TrimEol(lines[k])).Some?
                       && (forall m | k < m < |lines| :: UsageOf(j, TrimEol(lines[m])).None?) ::
              Scanned(j, lines).usage == UsageOf(j, TrimEol(lines[k])).value
    ensures !Scanned(j, lines).found ==> Scanned(j, lines).usage == Tokens(0, 0, 0)
  {
    if lines != [] {
      var prefix := lines[..|lines| - 1];
      ScannedIsLastUsage(j, prefix);
      assert forall k | 0 <= k < |prefix| :: prefix[k] == lines[k];
    }
  }

  lemma {:induction false} ScannedConcat(j: Json, a: seq<seq<byte>>, line: seq<byte>)
    ensures Scanned(j, a + [line]) == Fed(j, Scanned(j, a), TrimEol(line))
  {
  }

  /** The bytes of `text`. */
  predicate Spells(bytes: seq<byte>, text: string) {
    |bytes| == |text| && forall k | 0 <= k < |text| :: bytes[k] as int == text[k] as int
  }

  lemma MarkersSpelled()
    ensures Spells(DATA, "data:") && Spells(DONE, "[DONE]") && Spells([NL], "\n") && Spells([CR], "\r")
  {
  }

  /** A line that is no data line, or carries nothing, the end marker or no JSON, changes nothing. */
  lemma NoFrameIsRead(j: Json, sc: Scan, line: seq<byte>, data: seq<byte>, end: seq<byte>)
    requires Spells(data, "data:") && Spells(end, "[DONE]")
    requires !(data <= line) || j.trim(line[5..]) == [] || j.trim(line[5..]) == end || j.decode(j.trim(line[5..])) == None
    ensures Fed(j, sc, line) == sc
  {
    assert data == DATA && end == DONE;
  }

  /**
   What a frame does, field by field. Usage at the top counts if any of its fields is not zero; else the usage
   inside a completed response. Prompt and input tokens are one number, completion and output tokens another,
   and a total of zero is their sum. The model is the frame's, or that of the response whose usage counts.
   */
  lemma FrameIsRead(j: Json, sc: Scan, line: seq<byte>, data: seq<byte>, end: seq<byte>, f: Frame)
    requires Spells(data, "data:") && Spells(end, "[DONE]")
    requires data <= line && j.trim(line[5..]) != [] && j.trim(line[5..]) != end && j.decode(j.trim(line[5..])) == Some(f)
    ensures
      var top, inner := f.usage, f.responseUsage;
      var named := if f.model == "" then sc.upstream else f.model;
      Fed(j, sc, line) ==
        if top != Wire(0, 0, 0, 0, 0) then
          var p, c := top.prompt + top.input, top.completion + top.output;
          Scan(Tokens(p, c, if top.total == 0 then p + c else top.total), true, named)
        else if f.kind == "response.completed" && inner != Wire(0, 0, 0, 0, 0) then
          var p, c := inner.prompt + inner.input, inner.completion + inner.output;
          Scan(Tokens(p, c, if inner.total == 0 then p + c else inner.total), true,
               if f.responseModel == "" then named else f.responseModel)
        else Scan(sc.usage, sc.found, named)
  {
    assert data == DATA && end == DONE;
  }

  class Scanner {
    const json: Json
    var usage: Tokens
    var found: bool
    var upstream: string

    function State(): Scan reads this { Scan(usage, found, upstream) }

    constructor (json: Json)
      ensures State() == FRESH && usage == Tokens(0, 0, 0) && !found && upstream == "" && this.json == json
    {
      this.json := json;
      usage, found, upstream := NO_TOKENS, false, "";
    }

    method FeedLine(line: seq<byte>)
      modifies this
      ensures State() == Fed(json, old(State()), line)
    {
      if !(DATA <= line) {
        return;
      }
      var payload := json.trim(line[|DATA|..]);
      if |payload| == 0 || payload == DONE {
        return;
      }
      var decoded := json.decode(payload);
      if decoded.None? {
        return;
      }
      var frame := decoded.value;
      if frame.model != "" {
        upstream := frame.model;
      }
      var u := ToUsage(frame.usage);
      if u.Some? {
        usage, found := u.value, true;
        return;
      }
      if frame.kind == "response.completed" {
        u := ToUsage(frame.responseUsage);
        if u.Some? {
          usage, found := u.value, true;
          if frame.responseModel != "" {
            upstream := frame.responseModel;
          }
        }
      }
    }
  }

  // ---------------------------------------------------------------- the reader

  datatype ReadError = NoError | Eof | OtherError

  /** Every line, the unterminated last one too. */
  function AllLines(bs: seq<byte>): seq<seq<byte>> {
    if Tail(bs) == [] then Lines(bs) else Lines(bs) + [Tail(bs)]
  }

  /** The lines of stretches of bytes that were each cut off by a Close. */
  function CutLines(cuts: seq<seq<byte>>): seq<seq<byte>> {
    if cuts == [] then [] else CutLines(cuts[..|cuts| - 1]) + AllLines(cuts[|cuts| - 1])
  }

  function Joined(cuts: seq<seq<byte>>): seq<byte> {
    if cuts == [] then [] else Joined(cuts[..|cuts| - 1]) + cuts[|cuts| - 1]
  }

  /** What `done` is told about a stream: with its unterminated tail exactly if a Close came before the end. */
  function Report(j: Json, bytes: seq<byte>, early: bool): (Scan, bool) {
    var sc := Scanned(j, if early then AllLines(bytes) else Lines(bytes));
    (sc, sc.found)
  }

  /** `calls` records what `done` was called with: the result and whether usage had been found. */
  class TeeUsageReader {
    const scanner: Scanner
    var buf: seq<byte>
    var once: bool
    var sawEof: bool
    var calls: seq<(Scan, bool)>
    ghost var cuts: seq<seq<byte>>        // the bytes up to each Close that came before the end
    ghost var since: seq<byte>            // the bytes after the last of them
    ghost var closed: bool
    ghost var ended: seq<byte>            // the bytes there were when `done` was called
    ghost var early: bool                 // it was called by a Close before the end

    /** Every byte handed to the caller. */
    ghost function Got(): seq<byte> reads this { Joined(cuts) + since }

    /** Whatever is read, and whenever it is closed. */
    ghost predicate Valid() reads this, scanner {
      && scanner.State() == Scanned(scanner.json, CutLines(cuts) + Lines(since))
      && buf == Tail(since)
      && (once <==> closed || sawEof)
      && calls == (if once then [Report(scanner.json, ended, early)] else [])
      && (if early then closed && cuts != [] && cuts[0] == ended else cuts == [])
      && (once && !early ==> sawEof && ended <= since)
    }

    constructor (json: Json)
      ensures Valid() && fresh(scanner) && scanner.json == json
      ensures cuts == [] && since == [] && !closed && !sawEof && calls == []
    {
      scanner := new Scanner(json);
      buf, once, sawEof, calls := [], false, false, [];
      cuts, since, closed, ended, early := [], [], false, [], false;
      new;
      assert CutLines([]) + Lines([]) == [] && Tail([]) == [];
    }

    /** One Read of the source: its bytes go to the caller as they are. */
    method Read(chunk: seq<byte>, err: ReadError) returns (out: seq<byte>, outErr: ReadError)
      requires Valid()
      modifies this, scanner
      ensures Valid()
      ensures out == chunk && outErr == err && Got() == old(Got()) + chunk
      ensures cuts == old(cuts) && since == old(since) + chunk && closed == old(closed)
      ensures sawEof == (old(sawEof) || err == Eof)
      ensures if !old(once) && err == Eof then ended == since && !early else ended == old(ended) && early == old(early)
    {
      hide Lines, Tail, Scanned, CutLines, Joined, Report;
      Associates(Joined(cuts), since, chunk);
      if |chunk| > 0 {
        Accept(chunk);
      } else {
        AppendNothing(since);
      }
      if err == Eof {
        sawEof := true;
        if !once {
          Uncut(cuts, since);
          ReportIs(scanner.json, since, false);
          ended := since;
        }
        Finish();
      }
      return chunk, err;
    }

    /** Takes in more bytes. */
    method Accept(chunk: seq<byte>)
      requires Valid()
      modifies this`buf, this`since, scanner
      ensures Valid() && since == old(since) + chunk
    {
      hide Lines, Tail, Scanned, CutLines, Report;
      ghost var before := since;
      buf := buf + chunk;
      since := since + chunk;
      SplitGoesOn(before, chunk);
      DrainLines(CutLines(cuts) + Lines(before));
      Associates(CutLines(cuts), Lines(before), Lines(Tail(before) + chunk));
    }

    /** Feeds every complete line of the buffer and leaves the rest in it. */
    method DrainLines(ghost fed: seq<seq<byte>>)
      requires scanner.State() == Scanned(scanner.json, fed)
      modifies this`buf, scanner
      ensures scanner.State() == Scanned(scanner.json, fed + Lines(old(buf)))
      ensures buf == Tail(old(buf))
    {
      hide Lines, Tail, Scanned, TrimEol, Fed, FirstNl;
      ghost var all := fed;
      ghost var start := buf;
      while true
        invariant scanner.State() == Scanned(scanner.json, all)
        invariant all + Lines(buf) == fed + Lines(start)
        invariant Tail(buf) == Tail(start)
        decreases |buf|
      {
        var n := FirstNl(buf);
        FirstLine(buf);
        if n == |buf| {
          AppendNothing(all);
          return;
        }
        var line := buf[..n + 1];
        TrimFirstLine(buf, n);
        ConsAssociates(all, buf[..n], Lines(buf[n + 1..]));
        scanner.FeedLine(TrimEol(line));
        ScannedConcat(scanner.json, all, buf[..n]);
        all := all + [buf[..n]];
        buf := buf[n + 1..];
      }
    }

    method Close()
      requires Valid()
      modifies this, scanner
      ensures Valid() && closed && |calls| == 1
      ensures Got() == old(Got()) && sawEof == old(sawEof)
      ensures if sawEof then cuts == old(cuts) && since == old(since) else cuts == old(cuts) + [old(since)] && since == []
      ensures if old(once) then ended == old(ended) && early == old(early) else ended == old(since) && early
    {
      hide Lines, Tail, Scanned, TrimEol, Fed, CutLines, Joined, Report;
      if !sawEof {
        CutHere(cuts, since);
        ghost var fed := CutLines(cuts) + Lines(since);
        if |buf| > 0 {
          ScannedConcat(scanner.json, fed, buf);
          Associates(CutLines(cuts), Lines(since), [buf]);
          scanner.FeedLine(TrimEol(buf));
          buf := [];
        }
        if !once {
          FirstCut(cuts, since);
          ReportIs(scanner.json, since, true);
          ended, early := since, true;
        }
        cuts, since := cuts + [since], [];
      }
      closed := true;
      Finish();
    }

    /** Calls `done` the first time only. */
    method Finish()
      modifies this`once, this`calls
      ensures once
      ensures calls == if old(once) then old(calls) else old(calls) + [(scanner.State(), scanner.found)]
    {
      if once {
        return;
      }
      once := true;
      calls := calls + [(scanner.State(), scanner.found)];
    }
  }

  lemma {:induction false} FirstLine(buf: seq<byte>)
    ensures
      var n := FirstNl(buf);
      if n == |buf| then Lines(buf) == [] && Tail(buf) == buf
      else Lines(buf) == [buf[..n]] + Lines(buf[n + 1..]) && Tail(buf) == Tail(buf[n + 1..])
  {
  }

  /** Cutting the newline off with the rest of the line end changes nothing. */
  lemma {:induction false} TrimFirstLine(buf: seq<byte>, n: nat)
    requires n < |buf| && buf[n] == NL
    ensures TrimEol(buf[..n + 1]) == TrimEol(buf[..n])
  {
    assert buf[..n + 1][..n] == buf[..n];
  }

  lemma AppendNothing<T>(a: seq<T>)
    ensures a + [] == a
  {
  }

  lemma ConsAssociates<T>(a: seq<T>, x: T, b: seq<T>)
    ensures a + ([x] + b) == (a + [x]) + b
  {
  }

  lemma Associates<T>(a: seq<T>, b: seq<T>, c: seq<T>)
    ensures a + (b + c) == (a + b) + c
  {
  }

  /** A stretch cut off by a Close, and a new one begun. */
  lemma CutHere(cuts: seq<seq<byte>>, since: seq<byte>)
    ensures CutLines(cuts + [since]) + Lines([]) == CutLines(cuts) + AllLines(since)
    ensures Joined(cuts + [since]) + [] == Joined(cuts) + since && Tail([]) == []
  {
    assert (cuts + [since])[..|cuts|] == cuts;
    AppendNothing(CutLines(cuts) + AllLines(since));
  }

  lemma ReportIs(j: Json, bytes: seq<byte>, early: bool)
    ensures
      var sc := Scanned(j, if early then AllLines(bytes) else Lines(bytes));
      Report(j, bytes, early) == (sc, sc.found)
  {
  }

  lemma Uncut(cuts: seq<seq<byte>>, since: seq<byte>)
    requires cuts == []
    ensures CutLines(cuts) + Lines(since) == Lines(since)
  {
  }

  lemma FirstCut(cuts: seq<seq<byte>>, since: seq<byte>)
    requires cuts == []
    ensures CutLines(cuts) + AllLines(since) == AllLines(since)
  {
  }

  /**
   Chunking does not matter: two readers that handed out the same bytes between closes, and ended at the
   same place in the same way, have the same buffer, the same scanner state and reported the same result,
   however the bytes were split.
   */
  lemma {:induction false} ChunkingDoesNotMatter(a: TeeUsageReader, b: TeeUsageReader)
    requires a.Valid() && b.Valid() && a.scanner.json == b.scanner.json
    requires a.cuts == b.cuts && a.since == b.since && a.once == b.once
    requires a.once ==> a.ended == b.ended && a.early == b.early
    ensures a.buf == b.buf && a.scanner.State() == b.scanner.State() && a.calls == b.calls
    ensures a.buf == [] || (NL !in a.buf && |a.buf| <= |a.since| && a.buf == a.since[|a.since| - |a.buf|..])
  {
    hide Scanned, Lines, CutLines, Report, Tail;
    TailHasNoNl(a.since);
    TailIsSuffix(a.since);
  }

  /** The report says "found" exactly for usage on a complete line, or on the tail when a Close came first. */
  lemma ReportFoundIff(r: TeeUsageReader)
    requires r.Valid() && r.once
    ensures
      var j := r.scanner.json;
      var lines := Lines(r.ended);
      && |r.calls| == 1
      && (r.calls[0].1 <==>
            || (exists k :: 0 <= k < |lines| && UsageOf(j, TrimEol(lines[k])).Some?)
            || (r.early && UsageOf(j, TrimEol(Tail(r.ended))).Some?))
  {
    ReportedUsage(r.scanner.json, r.ended, r.early);
    ScannedIsLastUsage(r.scanner.json, Lines(r.ended));
  }

  /** The report is that of the complete lines, with the tail on top of it when a Close came first. */
  lemma ReportedUsage(j: Json, bytes: seq<byte>, early: bool)
    ensures
      var base := Scanned(j, Lines(bytes));
      var u := UsageOf(j, TrimEol(Tail(bytes)));
      var (sc, found) := Report(j, bytes, early);
      && sc.usage == (if early && u.Some? then u.value else base.usage)
      && sc.found == found == (base.found || (early && u.Some?))
  {
    ScannedConcat(j, Lines(bytes), Tail(bytes));
  }

  /**
   A stream whose last usage stands on an unterminated line is reported short when it is read to its end:
   the report is that of the whole stream if and only if a Close came before the end, or the tail carries
   no usage, or the usage it carries is the one already found.
   */
  lemma ReportIsOfWholeStreamIff(r: TeeUsageReader)
    requires r.Valid() && r.once
    ensures
      var j := r.scanner.json;
      var whole := Scanned(j, AllLines(r.ended));
      var base := Scanned(j, Lines(r.ended));
      var tail := UsageOf(j, TrimEol(Tail(r.ended)));
      && |r.calls| == 1
      && (r.calls[0].1 == whole.found && r.calls[0].0.usage == whole.usage <==>
            r.early || tail.None? || (base.found && base.usage == tail.value))
  {
    ReportedUsage(r.scanner.json, r.ended, r.early);
    ReportedUsage(r.scanner.json, r.ended, true);
  }

  /** The same bytes, closed before the end and read to it. */
  method EndedBothWays(json: Json, bytes: seq<byte>) returns (early: TeeUsageReader, late: TeeUsageReader)
    ensures early.Valid() && late.Valid() && early.Got() == late.Got() == bytes
    ensures early.scanner.json == late.scanner.json == json
    ensures early.calls == [Report(json, bytes, true)] && late.calls == [Report(json, bytes, false)]
  {
    hide Lines, Tail, Scanned, AllLines, CutLines, Report, Joined;
    EmptyCuts(bytes);
    early := new TeeUsageReader(json);
    var _, _ := early.Read(bytes, NoError);
    early.Close();
    late := new TeeUsageReader(json);
    var _, _ := late.Read(bytes, Eof);
    late.Close();
  }

  lemma EmptyCuts(bytes: seq<byte>)
    ensures Joined([]) + [] == [] && Joined([]) + ([] + bytes) == bytes && [] + bytes == bytes
  {
  }

  lemma TailIsSuffix(bs: seq<byte>)
    ensures |Tail(bs)| <= |bs| && Tail(bs) == bs[|bs| - |Tail(bs)|..]
  {
    hide Lines, Tail, Rejoined;
    SplitRejoins(bs);
    SuffixOfSum(Rejoined(Lines(bs)), Tail(bs));
  }

  lemma SuffixOfSum(a: seq<byte>, b: seq<byte>)
    ensures (a + b)[|a + b| - |b|..] == b
  {
  }
}

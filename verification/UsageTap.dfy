/** The tap on a proxied response: bytes come in chunks, lines are handed on one by one, and the
    last line carrying usage wins. */
module UsageTap {
  import opened Text

  type byte = b: int | 0 <= b < 256

  const NEWLINE: byte := 10
  const MAX_UNTERMINATED_LINE_BYTES := 32 * 1024 * 1024
  const RETAINED_TAIL_BYTES := 1024 * 1024

  /** What one line says: parts a line does not carry are `None`. */
  datatype Line = Line(model: Option<string>, usage: Option<string>, timings: Option<string>, chars: nat)

  datatype Reading = Reading(usage: Option<string>, timings: Option<string>, model: Option<string>, chars: nat)

  const NOTHING := Reading(None, None, None, 0)

  function Later<T>(was: Option<T>, now: Option<T>): Option<T> {
    if now.Some? then now else was
  }

  /** Take one line in; lines that do not parse say nothing. */
  function ProcessLine(parse: seq<byte> -> Option<Line>, r: Reading, bytes: seq<byte>): Reading {
    match parse(bytes)
    case None => r
    case Some(v) =>
      Reading(Later(r.usage, v.usage), Later(r.timings, v.timings), Later(r.model, v.model), r.chars + v.chars)
  }

  function ProcessLines(parse: seq<byte> -> Option<Line>, r: Reading, lines: seq<seq<byte>>): Reading {
    if lines == [] then r else ProcessLine(parse, ProcessLines(parse, r, lines[..|lines| - 1]), lines[|lines| - 1])
  }

  /** Complete lines in a buffer, and what follows the last of them. */
  function Complete(buf: seq<byte>): seq<seq<byte>> {
    var pieces := Split(buf, NEWLINE);
    pieces[..|pieces| - 1]
  }

  function Remainder(buf: seq<byte>): seq<byte> {
    var pieces := Split(buf, NEWLINE);
    pieces[|pieces| - 1]
  }

  /** Complete lines taken in, the remainder kept. */
  function Drained(parse: seq<byte> -> Option<Line>, buf: seq<byte>, r: Reading): (seq<byte>, Reading) {
    (Remainder(buf), ProcessLines(parse, r, Complete(buf)))
  }

  /** The accumulator's state after a chunk. */
  function Fed(parse: seq<byte> -> Option<Line>, buf: seq<byte>, r: Reading, chunk: seq<byte>): (seq<byte>, Reading) {
    var (rest, read) := Drained(parse, buf + chunk, r);
    if |rest| > MAX_UNTERMINATED_LINE_BYTES then (rest[|rest| - RETAINED_TAIL_BYTES..], ProcessLine(parse, read, rest))
    else (rest, read)
  }

  function Finished(parse: seq<byte> -> Option<Line>, buf: seq<byte>, r: Reading): Reading {
    if buf == [] then r else ProcessLine(parse, r, buf)
  }

  class UsageAccumulator {
    const parse: seq<byte> -> Option<Line>
    var lineBuf: seq<byte>
    var reading: Reading

    constructor (parse: seq<byte> -> Option<Line>)
      ensures this.parse == parse && lineBuf == [] && reading == NOTHING
    {
      this.parse := parse;
      lineBuf, reading := [], NOTHING;
    }

    method Feed(chunk: seq<byte>)
      modifies this
      ensures (lineBuf, reading) == Fed(parse, old(lineBuf), old(reading), chunk)
    {
      lineBuf := lineBuf + chunk;
      var pos := Position(lineBuf, NEWLINE);
      while pos >= 0
        invariant pos < 0 ==> NEWLINE !in lineBuf
        invariant pos >= 0 ==> pos < |lineBuf| && lineBuf[pos] == NEWLINE && NEWLINE !in lineBuf[..pos]
        invariant Drained(parse, lineBuf, reading) == Drained(parse, old(lineBuf) + chunk, old(reading))
        decreases |lineBuf|
      {
        var lineBytes := lineBuf[..pos];
        DrainOne(parse, lineBuf, reading, pos);
        lineBuf := lineBuf[pos + 1..];
        reading := ProcessLine(parse, reading, lineBytes);
        pos := Position(lineBuf, NEWLINE);
      }
      DrainNone(parse, lineBuf, reading);
      if |lineBuf| > MAX_UNTERMINATED_LINE_BYTES {
        reading := ProcessLine(parse, reading, lineBuf);
        lineBuf := lineBuf[|lineBuf| - RETAINED_TAIL_BYTES..];
      }
    }

    method Finish()
      modifies this
      ensures lineBuf == [] && reading == Finished(parse, old(lineBuf), old(reading))
    {
      if lineBuf != [] {
        var remaining := lineBuf;
        lineBuf := [];
        reading := ProcessLine(parse, reading, remaining);
      }
    }
  }

  method Position(s: seq<byte>, b: byte) returns (pos: int)
    ensures pos < 0 ==> b !in s
    ensures pos >= 0 ==> pos < |s| && s[pos] == b && b !in s[..pos]
  {
    for i := 0 to |s|
      invariant b !in s[..i]
    {
      if s[i] == b {
        return i;
      }
      assert s[..i + 1] == s[..i] + [s[i]];
    }
    assert s[..|s|] == s;
    return -1;
  }

  lemma {:induction false} DrainOne(parse: seq<byte> -> Option<Line>, buf: seq<byte>, r: Reading, pos: nat)
    requires pos < |buf| && buf[pos] == NEWLINE && NEWLINE !in buf[..pos]
    ensures Drained(parse, buf, r) == Drained(parse, buf[pos + 1..], ProcessLine(parse, r, buf[..pos]))
  {
    FirstLine(buf, pos);
    ProcessFirst(parse, r, buf[..pos], Complete(buf[pos + 1..]));
  }

  lemma {:induction false} FirstLine(buf: seq<byte>, pos: nat)
    requires pos < |buf| && buf[pos] == NEWLINE && NEWLINE !in buf[..pos]
    ensures Complete(buf) == [buf[..pos]] + Complete(buf[pos + 1..])
    ensures Remainder(buf) == Remainder(buf[pos + 1..])
  {
    assert buf == buf[..pos] + [NEWLINE] + buf[pos + 1..];
    SplitAtFirst(buf[..pos], NEWLINE, buf[pos + 1..]);
  }

  lemma {:induction false} ProcessFirst(parse: seq<byte> -> Option<Line>, r: Reading, line: seq<byte>,
      lines: seq<seq<byte>>)
    ensures ProcessLines(parse, r, [line] + lines) == ProcessLines(parse, ProcessLine(parse, r, line), lines)
  {
    var first: seq<seq<byte>> := [line];
    ProcessLinesConcat(parse, r, first, lines);
    assert first[..0] == [];
  }

  lemma {:induction false} DrainNone(parse: seq<byte> -> Option<Line>, buf: seq<byte>, r: Reading)
    requires NEWLINE !in buf
    ensures Drained(parse, buf, r) == (buf, r)
  {
    SplitPlain(buf, NEWLINE);
  }

  // ----- one chunk, line by line

  predicate IsCut(stream: seq<byte>, lines: seq<seq<byte>>, last: seq<byte>) {
    && NEWLINE !in last && (forall i :: 0 <= i < |lines| ==> NEWLINE !in lines[i])
    && stream == Flatten(seq(|lines|, i requires 0 <= i < |lines| => lines[i] + [NEWLINE])) + last
  }

  lemma {:induction false} CutIsSplit(stream: seq<byte>, lines: seq<seq<byte>>, last: seq<byte>)
    requires IsCut(stream, lines, last)
    ensures Split(stream, NEWLINE) == lines + [last]
    decreases |lines|
  {
    var ended := seq(|lines|, i requires 0 <= i < |lines| => lines[i] + [NEWLINE]);
    if lines == [] {
      SplitPlain(last, NEWLINE);
      assert stream == last;
    } else {
      var n := |lines| - 1;
      var front := Flatten(ended[..n]);
      assert ended[..n] == seq(n, i requires 0 <= i < n => lines[..n][i] + [NEWLINE]);
      assert front == front + [];
      CutIsSplit(front, lines[..n], []);
      SplitAtFirst(lines[n], NEWLINE, last);
      SplitPlain(last, NEWLINE);
      SplitConcat(front, lines[n] + [NEWLINE] + last, NEWLINE);
      Regroup(front, lines[n] + [NEWLINE], last);
      assert stream == front + (lines[n] + [NEWLINE] + last);
      assert [] + lines[n] == lines[n] && lines == lines[..n] + [lines[n]];
    }
  }

  /** What a chunk does: the lines it completes are taken in, in order, and the rest is kept; a rest of more than
      32 MiB is taken in too, and its last MiB is kept. */
  lemma {:induction false} FedReads(parse: seq<byte> -> Option<Line>, buf: seq<byte>, r: Reading, chunk: seq<byte>,
      lines: seq<seq<byte>>, last: seq<byte>)
    requires IsCut(buf + chunk, lines, last)
    ensures var read := ProcessLines(parse, r, lines);
            Fed(parse, buf, r, chunk) ==
            if |last| <= 33_554_432 then (last, read)
            else (last[|last| - 1_048_576..], ProcessLine(parse, read, last))
  {
    CutIsSplit(buf + chunk, lines, last);
    assert (lines + [last])[..|lines|] == lines;
  }

  // ----- chunking does not matter

  /** The state after all chunks. */
  function FedAll(parse: seq<byte> -> Option<Line>, chunks: seq<seq<byte>>): (seq<byte>, Reading) {
    if chunks == [] then ([], NOTHING)
    else
      var (buf, r) := FedAll(parse, chunks[..|chunks| - 1]);
      Fed(parse, buf, r, chunks[|chunks| - 1])
  }

  /** No line of the stream, finished or not, is longer than the valve allows. */
  ghost predicate LinesFit(stream: seq<byte>) {
    forall i :: 0 <= i < |Split(stream, NEWLINE)| ==> |Split(stream, NEWLINE)[i]| <= MAX_UNTERMINATED_LINE_BYTES
  }

  lemma {:induction false} ProcessLinesConcat(parse: seq<byte> -> Option<Line>, r: Reading, p: seq<seq<byte>>,
      q: seq<seq<byte>>)
    ensures ProcessLines(parse, r, p + q) == ProcessLines(parse, ProcessLines(parse, r, p), q)
    decreases |q|
  {
    if q == [] {
      assert p + q == p;
    } else {
      assert (p + q)[..|p + q| - 1] == p + q[..|q| - 1];
      ProcessLinesConcat(parse, r, p, q[..|q| - 1]);
    }
  }

  /** Cutting the old remainder together with a chunk is cutting the whole stream. */
  lemma {:induction false} RemainderConcat(stream: seq<byte>, chunk: seq<byte>)
    ensures Complete(stream + chunk) == Complete(stream) + Complete(Remainder(stream) + chunk)
    ensures Remainder(stream + chunk) == Remainder(Remainder(stream) + chunk)
  {
    SplitOn(stream, chunk);
  }

  lemma {:induction false} SplitOn(stream: seq<byte>, chunk: seq<byte>)
    ensures Split(stream + chunk, NEWLINE) == Complete(stream) + Split(Remainder(stream) + chunk, NEWLINE)
  {
    var rest, q := Remainder(stream), Split(chunk, NEWLINE);
    SplitConcat(stream, chunk, NEWLINE);
    SplitJoin(stream, NEWLINE);
    SplitPlain(rest, NEWLINE);
    SplitConcat(rest, chunk, NEWLINE);
    assert Split(rest + chunk, NEWLINE) == [rest + q[0]] + q[1..];
    Regroup(Complete(stream), [rest + q[0]], q[1..]);
  }

  lemma {:induction false} PrefixFits(stream: seq<byte>, chunk: seq<byte>)
    requires LinesFit(stream + chunk)
    ensures LinesFit(stream)
  {
    var p, q := Split(stream, NEWLINE), Split(chunk, NEWLINE);
    SplitConcat(stream, chunk, NEWLINE);
    var all := Split(stream + chunk, NEWLINE);
    forall i | 0 <= i < |p| ensures |p[i]| <= MAX_UNTERMINATED_LINE_BYTES {
      assert |all[i]| <= MAX_UNTERMINATED_LINE_BYTES;
      assert i < |p| - 1 ==> all[i] == p[i];
    }
  }

  /** However the stream is cut, the state depends on the stream alone. */
  lemma {:induction false} ChunkingDoesNotMatter(parse: seq<byte> -> Option<Line>, chunks: seq<seq<byte>>)
    requires LinesFit(Flatten(chunks))
    ensures FedAll(parse, chunks) ==
            (Remainder(Flatten(chunks)), ProcessLines(parse, NOTHING, Complete(Flatten(chunks))))
  {
    if chunks == [] {
      assert Split<byte>([], NEWLINE) == [[]];
    } else {
      var n := |chunks| - 1;
      var stream, chunk := Flatten(chunks[..n]), chunks[n];
      PrefixFits(stream, chunk);
      ChunkingDoesNotMatter(parse, chunks[..n]);
      RemainderConcat(stream, chunk);
      ProcessLinesConcat(parse, NOTHING, Complete(stream), Complete(Remainder(stream) + chunk));
      var all := Split(Flatten(chunks), NEWLINE);
      assert |all[|all| - 1]| <= MAX_UNTERMINATED_LINE_BYTES;
    }
  }

  /** At the end of the stream every line has been taken in, the last one with or without a break. */
  lemma {:induction false} FinishTakesEverything(parse: seq<byte> -> Option<Line>, chunks: seq<seq<byte>>)
    requires LinesFit(Flatten(chunks)) && parse([]) == None
    ensures var (buf, r) := FedAll(parse, chunks);
            Finished(parse, buf, r) == ProcessLines(parse, NOTHING, Split(Flatten(chunks), NEWLINE))
  {
    ChunkingDoesNotMatter(parse, chunks);
  }

  /** For every stream whatsoever the buffer stays bounded and holds no line break. */
  lemma {:induction false} BufferStaysSmall(parse: seq<byte> -> Option<Line>, chunks: seq<seq<byte>>)
    ensures var (buf, r) := FedAll(parse, chunks);
            |buf| <= MAX_UNTERMINATED_LINE_BYTES && NEWLINE !in buf
  {
    if chunks != [] {
      var n := |chunks| - 1;
      BufferStaysSmall(parse, chunks[..n]);
      var (buf, r) := FedAll(parse, chunks[..n]);
      SplitJoin(buf + chunks[n], NEWLINE);
    }
  }

  /** One whole response through the tap. */
  method TapResponse(parse: seq<byte> -> Option<Line>, chunks: seq<seq<byte>>) returns (r: Reading)
    requires parse([]) == None
    ensures LinesFit(Flatten(chunks)) ==> r == ProcessLines(parse, NOTHING, Split(Flatten(chunks), NEWLINE))
  {
    var acc := new UsageAccumulator(parse);
    for i := 0 to |chunks|
      invariant fresh(acc) && acc.parse == parse
      invariant (acc.lineBuf, acc.reading) == FedAll(parse, chunks[..i])
    {
      assert chunks[..i + 1][..i] == chunks[..i];
      acc.Feed(chunks[i]);
    }
    assert chunks[..|chunks|] == chunks;
    if LinesFit(Flatten(chunks)) {
      FinishTakesEverything(parse, chunks);
    }
    acc.Finish();
    r := acc.reading;
  }

  // ----- what the reading says

  datatype Part = Usage | Timings | Model

  function InLine(v: Line, part: Part): Option<string> {
    match part case Usage => v.usage case Timings => v.timings case Model => v.model
  }

  function InReading(r: Reading, part: Part): Option<string> {
    match part case Usage => r.usage case Timings => r.timings case Model => r.model
  }

  function Saying(parse: seq<byte> -> Option<Line>, bytes: seq<byte>, part: Part): Option<string> {
    match parse(bytes) case None => None case Some(v) => InLine(v, part)
  }

  /** Line i says `text` for this part, and no later line says anything for it. */
  ghost predicate LastSaid(parse: seq<byte> -> Option<Line>, lines: seq<seq<byte>>, part: Part, text: string, i: nat) {
    && i < |lines| && Saying(parse, lines[i], part) == Some(text)
    && forall j :: i < j < |lines| ==> Saying(parse, lines[j], part).None?
  }

  /** The usage, the timings and the model logged are each the ones on the last line that carries any. */
  lemma {:induction false} LastOneWins(parse: seq<byte> -> Option<Line>, lines: seq<seq<byte>>, part: Part,
      text: string)
    ensures InReading(ProcessLines(parse, NOTHING, lines), part) == Some(text) <==>
            exists i: nat :: LastSaid(parse, lines, part, text, i)
  {
    if lines != [] {
      var n := |lines| - 1;
      LastOneWins(parse, lines[..n], part, text);
      if Saying(parse, lines[n], part).Some? {
        assert Saying(parse, lines[n], part) == Some(text) <==> LastSaid(parse, lines, part, text, n);
        assert forall i: nat :: i < n ==> !LastSaid(parse, lines, part, text, i);
      } else {
        assert forall i: nat :: LastSaid(parse, lines, part, text, i) <==> LastSaid(parse, lines[..n], part, text, i);
      }
    }
  }

  function CharsIn(parse: seq<byte> -> Option<Line>, lines: seq<seq<byte>>): nat {
    if lines == [] then 0
    else CharsIn(parse, lines[..|lines| - 1]) + match parse(lines[|lines| - 1]) case None => 0 case Some(v) => v.chars
  }

  lemma {:induction false} CharsAddUp(parse: seq<byte> -> Option<Line>, lines: seq<seq<byte>>)
    ensures ProcessLines(parse, NOTHING, lines).chars == CharsIn(parse, lines)
  {
    if lines != [] { CharsAddUp(parse, lines[..|lines| - 1]); }
  }
}

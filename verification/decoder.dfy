/** The browser's incremental reader of the result stream, as a
    specification: which lines yield events, what one chunk does to the
    carry-over buffer and the event list, and the theorem that how the text
    is cut into chunks does not matter. Chunks are text already decoded from
    bytes; `parse` stands for `JSON.parse`, None where it throws. */
module Decoder {

  import opened Wrappers
  import opened Text

  const DataPrefix := "data: "

  /** `line.trim().startsWith('data: ')`. */
  predicate IsDataLine(line: string) {
    StartsWith(Trim(line), DataPrefix)
  }

  /** `line.trim().slice(6)`: what is handed to the parser. */
  function Payload(line: string): string
    requires IsDataLine(line)
  {
    Trim(line)[|DataPrefix|..]
  }

  /** The events one complete line contributes. */
  function DecodeLine<T>(line: string, parse: string -> Option<T>): seq<T> {
    if IsDataLine(line) then
      match parse(Payload(line))
      case Some(v) => [v]
      case None => []
    else []
  }

  /** A line yields at most one event, and exactly one when it is a
      `data: ` line whose payload parses: the parsed value. */
  lemma DecodeLineYields<T>(line: string, parse: string -> Option<T>)
    ensures |DecodeLine(line, parse)| <= 1
    ensures DecodeLine(line, parse) != [] <==> IsDataLine(line) && parse(Payload(line)).Some?
    ensures DecodeLine(line, parse) != [] ==> DecodeLine(line, parse)[0] == parse(Payload(line)).value
  {
  }

  /** The events of complete lines processed in order, one after another,
      with nothing reordered or merged. */
  function DecodeLines<T>(lines: seq<string>, parse: string -> Option<T>): seq<T> {
    if lines == [] then []
    else DecodeLines(lines[..|lines| - 1], parse) + DecodeLine(lines[|lines| - 1], parse)
  }

  /** Decoding one more line of a list appends that line's events. */
  lemma DecodeNextLine<T>(lines: seq<string>, i: int, parse: string -> Option<T>)
    requires 0 <= i < |lines|
    ensures DecodeLines(lines[..i + 1], parse) == DecodeLines(lines[..i], parse) + DecodeLine(lines[i], parse)
  {
    assert lines[..i + 1][..i] == lines[..i];
  }

  /** Decoding distributes over concatenation of line lists. */
  lemma {:induction false} DecodeLinesAppend<T>(a: seq<string>, b: seq<string>, parse: string -> Option<T>)
    ensures DecodeLines(a + b, parse) == DecodeLines(a, parse) + DecodeLines(b, parse)
    decreases |b|
  {
    if b == [] {
      assert a + b == a;
    } else {
      var b' := b[..|b| - 1];
      assert (a + b)[..|a + b| - 1] == a + b';
      assert (a + b)[|a + b| - 1] == b[|b| - 1];
      DecodeLinesAppend(a, b', parse);
    }
  }

  /** A line that is not a `data: ` line, or whose payload does not parse,
      adds nothing and does not stop the lines after it. */
  lemma SkippedLine<T>(a: seq<string>, line: string, b: seq<string>, parse: string -> Option<T>)
    requires !IsDataLine(line) || parse(Payload(line)).None?
    ensures DecodeLines(a + [line] + b, parse) == DecodeLines(a, parse) + DecodeLines(b, parse)
  {
    assert DecodeLine(line, parse) == [];
    assert DecodeLines([line], parse) == [] by {
      assert [line][..0] == [];
    }
    DecodeLinesAppend(a, [line], parse);
    assert DecodeLines(a + [line], parse) == DecodeLines(a, parse);
    DecodeLinesAppend(a + [line], b, parse);
  }

  /** The reader's state between chunks: the carry-over `buffer` and the
      events appended so far. */
  datatype Progress<T> = Progress(buffer: string, events: seq<T>)

  /** The pieces of a split: every piece but the last is a complete line
      and is decoded; the last is what remains unread. */
  function Pieces<T>(lines: seq<string>, parse: string -> Option<T>): Progress<T>
    requires lines != []
  {
    Progress(lines[|lines| - 1], DecodeLines(lines[..|lines| - 1], parse))
  }

  /** One chunk: append it to the buffer, split on line feeds, decode every
      piece but the last, and keep the last as the new buffer. */
  function Advance<T>(p: Progress<T>, chunk: string, parse: string -> Option<T>): Progress<T> {
    var q := Pieces(Split(p.buffer + chunk), parse);
    Progress(q.buffer, p.events + q.events)
  }

  /** The chunks read so far, in order, from an empty buffer. */
  function Feed<T>(chunks: seq<string>, parse: string -> Option<T>): Progress<T> {
    if chunks == [] then Progress("", [])
    else Advance(Feed(chunks[..|chunks| - 1], parse), chunks[|chunks| - 1], parse)
  }

  /** The whole text of the chunks. */
  function Concat(chunks: seq<string>): string {
    if chunks == [] then "" else Concat(chunks[..|chunks| - 1]) + chunks[|chunks| - 1]
  }

  /** The reference decoding of a complete text: every line that a line
      feed ends is decoded, and the text after the last line feed is what
      remains unread. */
  function Decode<T>(s: string, parse: string -> Option<T>): Progress<T> {
    Pieces(Split(s), parse)
  }

  /** Complete lines in front of other pieces are decoded first, and leave
      the unread piece alone. */
  lemma PiecesAppend<T>(complete: seq<string>, tail: seq<string>, parse: string -> Option<T>)
    requires tail != []
    ensures Pieces(complete + tail, parse)
         == Progress(Pieces(tail, parse).buffer, DecodeLines(complete, parse) + Pieces(tail, parse).events)
  {
    var whole := complete + tail;
    assert whole[|whole| - 1] == tail[|tail| - 1];
    assert whole[..|whole| - 1] == complete + tail[..|tail| - 1];
    DecodeLinesAppend(complete, tail[..|tail| - 1], parse);
  }

  /** Reading one more chunk after a text is decoding the longer text. */
  lemma DecodeAppend<T>(x: string, c: string, parse: string -> Option<T>)
    ensures Advance(Decode(x, parse), c, parse) == Decode(x + c, parse)
  {
    var sx := Split(x);
    var tail := Split(sx[|sx| - 1] + c);
    SplitAppend(x, c);
    PiecesAppend(sx[..|sx| - 1], tail, parse);
  }

  /** After any number of chunks the buffer is the text after the last line
      feed of everything read, and every line before it has been decoded
      exactly once, in order. */
  lemma {:induction false} FeedIsDecode<T>(chunks: seq<string>, parse: string -> Option<T>)
    ensures Feed(chunks, parse) == Decode(Concat(chunks), parse)
    decreases |chunks|
  {
    if chunks == [] {
      assert Split("") == [""];
    } else {
      var init := chunks[..|chunks| - 1];
      FeedIsDecode(init, parse);
      DecodeAppend(Concat(init), chunks[|chunks| - 1], parse);
    }
  }

  /** Chunking invariance: two ways of cutting the same text into chunks
      leave the same buffer and the same events. */
  lemma ChunkingInvariance<T>(c1: seq<string>, c2: seq<string>, parse: string -> Option<T>)
    requires Concat(c1) == Concat(c2)
    ensures Feed(c1, parse) == Feed(c2, parse)
  {
    FeedIsDecode(c1, parse);
    FeedIsDecode(c2, parse);
  }

  /** Reading the text in chunks is the same as reading it in one. */
  lemma ChunkedIsWhole<T>(chunks: seq<string>, parse: string -> Option<T>)
    ensures Feed(chunks, parse) == Feed([Concat(chunks)], parse)
  {
    assert Concat([Concat(chunks)]) == Concat(chunks) by {
      assert [Concat(chunks)][..0] == [];
    }
    ChunkingInvariance(chunks, [Concat(chunks)], parse);
  }

  /** Text with no line feed yields no event, even a well-formed `data: `
      line: it only extends the unfinished last line. */
  lemma UnterminatedTextIgnored<T>(s: string, t: string, parse: string -> Option<T>)
    requires NewlineFree(t)
    ensures Decode(s + t, parse).events == Decode(s, parse).events
  {
    var ss := Split(s);
    SplitPieces(s);
    SplitAppend(s, t);
    var last := ss[|ss| - 1] + t;
    SplitNewlineFree(last);
    PiecesAppend(ss[..|ss| - 1], [last], parse);
    assert [last][..0] == [];
  }

  /** What follows the last line feed is exactly the buffer, which is
      dropped when the stream ends. */
  lemma LastLineIsBuffer<T>(s: string, t: string, parse: string -> Option<T>)
    requires NewlineFree(t)
    ensures Decode(s + "\n" + t, parse).buffer == t
  {
    var ss := Split(s);
    SplitPieces(s);
    var before := ss[..|ss| - 1];
    JoinIsTerminatedThenLast(ss);
    assert s + "\n" + t == Terminated(before) + (ss[|ss| - 1] + "\n" + t);
    SplitTerminated(before, ss[|ss| - 1] + "\n" + t);
    SplitLine(ss[|ss| - 1], t);
    SplitNewlineFree(t);
    var whole := Split(s + "\n" + t);
    assert whole == before + ([ss[|ss| - 1]] + [t]);
  }
}

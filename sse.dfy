/**
 * The event-stream framing the fetch-based chat-completions adapters apply
 * to each read: a simplified form of section 9.2.5, "Parsing an event
 * stream", of the WHATWG HTML Living Standard. A line is kept when its
 * trimmed form starts with `data: `; the first `data: ` is removed to give
 * the payload; the `[DONE]` sentinel and payloads that fail to parse or lack
 * `choices` deliver nothing.
 */
module ServerSentEvents {
  import opened Wrappers
  import opened JsString
  import opened ChatChunks
  import LineStream

  const DataPrefix := "data: "
  const DoneSentinel := "[DONE]"

  /** `line.trim().startsWith('data: ')`. */
  predicate IsDataLine(line: string) {
    StartsWith(Trim(line), DataPrefix)
  }

  /** `line.replace('data: ', '')`. */
  function Payload(line: string): string {
    ReplaceFirst(line, DataPrefix, "")
  }

  /** What one kept line delivers to `onStream`, given the JSON parser. */
  function DataLineContent(parse: string -> Option<ChatChunk>, line: string): (r: Option<string>)
    ensures Payload(line) == DoneSentinel ==> r.None?
    ensures parse(Payload(line)).None? ==> r.None?
    ensures Payload(line) != DoneSentinel && parse(Payload(line)).Some? ==> r == DeltaContent(parse(Payload(line)).value)
  {
    var data := Payload(line);
    if data == DoneSentinel then None
    else match parse(data)
      case None => None
      case Some(c) => DeltaContent(c)
  }

  /** The loop body of the event-stream adapters, as a line step. */
  function DataStep(parse: string -> Option<ChatChunk>): string -> Option<string> {
    line => DataLineContent(parse, line)
  }

  /** Every argument passed to `onStream` by a stream of reads. */
  function EventStreamCallbacks(chunks: seq<string>, parse: string -> Option<ChatChunk>): seq<string> {
    LineStream.StreamCallbacks(chunks, IsDataLine, DataStep(parse))
  }

  /** A line that begins with `data: ` is a data line whose payload is the rest of the line. */
  lemma PrefixedLine(rest: string)
    requires rest != [] && !IsWhitespace(rest[|rest| - 1])
    ensures IsDataLine(DataPrefix + rest)
    ensures Payload(DataPrefix + rest) == rest
  {
    PrefixedLineTrims(rest);
    PayloadAfterPrefix(rest);
  }

  /** Trimming a `data: ` line whose last character is not white space changes nothing. */
  lemma PrefixedLineTrims(rest: string)
    requires rest != [] && !IsWhitespace(rest[|rest| - 1])
    ensures Trim(DataPrefix + rest) == DataPrefix + rest
  {
    var line := DataPrefix + rest;
    assert line[0] == 'd';
    assert line[|line| - 1] == rest[|rest| - 1];
    TrimNoop(line);
  }

  /** Removing the leading `data: ` leaves the rest of the line. */
  lemma PayloadAfterPrefix(rest: string)
    ensures Payload(DataPrefix + rest) == rest
  {
    var line := DataPrefix + rest;
    assert line[..|DataPrefix|] == DataPrefix;
    ReplaceFirstAtStart(line, DataPrefix, "");
    assert line[|DataPrefix|..] == rest;
  }

  /** A read consisting of the line `data: [DONE]` delivers nothing. */
  lemma DoneReadDeliversNothing(parse: string -> Option<ChatChunk>)
    ensures EventStreamCallbacks([DataPrefix + DoneSentinel], parse) == []
  {
    var line := DataPrefix + DoneSentinel;
    PrefixedLine(DoneSentinel);
    assert DataStep(parse)(line).None?;
    DataLineWithoutNewline(line);
    LineStream.SingleReadStream(line, IsDataLine, DataStep(parse));
  }

  lemma DataLineWithoutNewline(line: string)
    requires line == DataPrefix + DoneSentinel
    ensures '\n' !in line
  {
  }

  /** Within a read, a kept line whose payload does not parse is skipped and the stream goes on. */
  lemma UnparseableLineSkipped(lines: seq<string>, bad: string, parse: string -> Option<ChatChunk>)
    requires parse(Payload(bad)).None?
    ensures LineStream.LinesCallbacks(lines + [bad], DataStep(parse)) == LineStream.LinesCallbacks(lines, DataStep(parse))
  {
    LineStream.LinesCallbacksSnoc(lines, bad, DataStep(parse));
  }

  /**
   * No carry-over between reads: the line `data: X` delivered in one read
   * yields the parsed fragment, while the same text split across two reads
   * as `dat` and `a: X` yields nothing, because neither half is a data line.
   */
  lemma SplitLineNotReassembled(parse: string -> Option<ChatChunk>, x: string)
    requires x != [] && x != DoneSentinel && '\n' !in x && !IsWhitespace(x[|x| - 1])
    requires parse(x) == Some(ChatChunk(Some([Choice(Some(Delta(Some(x))))])))
    ensures EventStreamCallbacks([DataPrefix + x], parse) == [x]
    ensures EventStreamCallbacks(["dat", "a: " + x], parse) == []
  {
    WholeLineDelivers(parse, x);
    HalvesDeliverNothing(parse, x);
  }

  lemma WholeLineDelivers(parse: string -> Option<ChatChunk>, x: string)
    requires x != [] && x != DoneSentinel && '\n' !in x && !IsWhitespace(x[|x| - 1])
    requires parse(x) == Some(ChatChunk(Some([Choice(Some(Delta(Some(x))))])))
    ensures EventStreamCallbacks([DataPrefix + x], parse) == [x]
  {
    var whole := DataPrefix + x;
    WholeLineYields(parse, x);
    NoNewlineInConcat(DataPrefix, x);
    KeptReadDelivers(whole, parse, x);
  }

  lemma WholeLineYields(parse: string -> Option<ChatChunk>, x: string)
    requires x != [] && x != DoneSentinel && !IsWhitespace(x[|x| - 1])
    requires parse(x) == Some(ChatChunk(Some([Choice(Some(Delta(Some(x))))])))
    ensures IsDataLine(DataPrefix + x) && DataLineContent(parse, DataPrefix + x) == Some(x)
  {
    PrefixedLine(x);
    assert DeltaContent(parse(x).value) == Some(x);
  }

  /** A read that is one kept line delivers what that line yields. */
  lemma KeptReadDelivers(line: string, parse: string -> Option<ChatChunk>, x: string)
    requires '\n' !in line && IsDataLine(line) && DataLineContent(parse, line) == Some(x)
    ensures EventStreamCallbacks([line], parse) == [x]
  {
    assert DataStep(parse)(line) == Some(x);
    LineStream.SingleReadStream(line, IsDataLine, DataStep(parse));
  }

  lemma HalvesDeliverNothing(parse: string -> Option<ChatChunk>, x: string)
    requires '\n' !in x
    ensures EventStreamCallbacks(["dat", "a: " + x], parse) == []
  {
    var second := "a: " + x;
    NoNewlineInConcat("a: ", x);
    assert second[0] == 'a';
    UnkeptPairDeliversNothing(parse, "dat", second);
  }

  /** Two single-line reads, the first shorter than `data: ` and the second starting with `a`, deliver nothing. */
  lemma UnkeptPairDeliversNothing(parse: string -> Option<ChatChunk>, first: string, second: string)
    requires |first| < |DataPrefix| && '\n' !in first
    requires second != [] && second[0] == 'a' && '\n' !in second
    ensures EventStreamCallbacks([first, second], parse) == []
  {
    ShortLineNotData(first);
    OtherInitialNotData(second);
    LineStream.TwoUnkeptReads(first, second, IsDataLine, DataStep(parse));
  }

  lemma NoNewlineInConcat(a: string, b: string)
    requires '\n' !in a && '\n' !in b
    ensures '\n' !in a + b
  {
    forall k | 0 <= k < |a + b| ensures (a + b)[k] != '\n' {
      if k < |a| { assert (a + b)[k] == a[k]; } else { assert (a + b)[k] == b[k - |a|]; }
    }
  }

  /** A line shorter than `data: ` is not a data line. */
  lemma ShortLineNotData(line: string)
    requires |line| < |DataPrefix|
    ensures !IsDataLine(line)
  {
  }

  /** A line that starts with a visible character other than `d` is not a data line. */
  lemma OtherInitialNotData(line: string)
    requires line != [] && !IsWhitespace(line[0]) && line[0] != 'd'
    ensures !IsDataLine(line)
  {
    assert TrimStart(line) == line;
    var t := TrimEnd(line);
    if t != [] { assert t[0] == line[0]; }
  }
}

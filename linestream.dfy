/**
 * The read loop shared by the fetch-based adapters (deepseek, zhipu,
 * moonshot, mistral and cohere): every network read is decoded on its own,
 * split on `\n`, filtered, and each kept line may deliver one fragment to
 * `onStream`, which is also appended to `fullText`. Nothing is carried over
 * from one read to the next. What a line keeps and delivers is a parameter;
 * the event-stream and JSON-lines formats supply them.
 */
module LineStream {
  import opened Wrappers
  import opened JsString

  /** `lines.filter(keep)`. */
  function KeptLines(lines: seq<string>, keep: string -> bool): (r: seq<string>)
    ensures |r| <= |lines|
    ensures forall k | 0 <= k < |r| :: keep(r[k])
    decreases |lines|
  {
    if |lines| == 0 then []
    else if keep(lines[0]) then [lines[0]] + KeptLines(lines[1..], keep)
    else KeptLines(lines[1..], keep)
  }

  /** The lines of one read that the loop visits. */
  function ReadLines(read: string, keep: string -> bool): seq<string> {
    KeptLines(Split(read, '\n'), keep)
  }

  /** A missing fragment delivers nothing, a present one is delivered once. */
  function Delivered(o: Option<string>): (r: seq<string>)
    ensures |r| <= 1
  {
    if o.Some? then [o.value] else []
  }

  /** The fragments delivered, in order, by a run of lines. */
  function LinesCallbacks(lines: seq<string>, step: string -> Option<string>): seq<string>
    decreases |lines|
  {
    if |lines| == 0 then []
    else LinesCallbacks(lines[..|lines| - 1], step) + Delivered(step(lines[|lines| - 1]))
  }

  /** The fragments one read delivers. */
  function ReadCallbacks(read: string, keep: string -> bool, step: string -> Option<string>): seq<string> {
    LinesCallbacks(ReadLines(read, keep), step)
  }

  /** The fragments a whole stream of reads delivers. */
  function StreamCallbacks(chunks: seq<string>, keep: string -> bool, step: string -> Option<string>): seq<string>
    decreases |chunks|
  {
    if |chunks| == 0 then []
    else StreamCallbacks(chunks[..|chunks| - 1], keep, step) + ReadCallbacks(chunks[|chunks| - 1], keep, step)
  }

  /**
   * The `while (true) { read; for (const line of lines) { ... } }` loop:
   * `calls` records the arguments passed to `onStream`, `fullText` is the
   * returned text.
   */
  method ConsumeReads(chunks: seq<string>, keep: string -> bool, step: string -> Option<string>)
    returns (fullText: string, calls: seq<string>)
    ensures calls == StreamCallbacks(chunks, keep, step)
    ensures fullText == Concat(calls)
  {
    fullText := "";
    calls := [];
    var i := 0;
    while i < |chunks|
      invariant 0 <= i <= |chunks|
      invariant calls == StreamCallbacks(chunks[..i], keep, step)
      invariant fullText == Concat(calls)
    {
      fullText, calls := ConsumeLines(ReadLines(chunks[i], keep), step, fullText, calls);
      assert chunks[..i + 1][..i] == chunks[..i];
      i := i + 1;
    }
    assert chunks[..i] == chunks;
  }

  /** The inner `for (const line of lines)` loop of one read, continuing the text and trace built so far. */
  method ConsumeLines(lines: seq<string>, step: string -> Option<string>, text0: string, calls0: seq<string>)
    returns (fullText: string, calls: seq<string>)
    requires text0 == Concat(calls0)
    ensures calls == calls0 + LinesCallbacks(lines, step)
    ensures fullText == Concat(calls)
  {
    fullText, calls := text0, calls0;
    var j := 0;
    while j < |lines|
      invariant 0 <= j <= |lines|
      invariant calls == calls0 + LinesCallbacks(lines[..j], step)
      invariant fullText == Concat(calls)
    {
      LinesCallbacksPrefix(lines, j, step);
      var content := step(lines[j]);
      AppendAssoc(calls0, LinesCallbacks(lines[..j], step), Delivered(content));
      if content.Some? {
        ConcatAppend(calls, [content.value]);
        fullText := fullText + content.value;
        calls := calls + [content.value];
      }
      j := j + 1;
    }
    assert lines[..j] == lines;
  }

  /** One more line adds what that line delivers. */
  lemma LinesCallbacksPrefix(lines: seq<string>, j: nat, step: string -> Option<string>)
    requires j < |lines|
    ensures LinesCallbacks(lines[..j + 1], step) == LinesCallbacks(lines[..j], step) + Delivered(step(lines[j]))
  {
    assert lines[..j + 1][..j] == lines[..j];
  }

  /**
   * Reads are processed independently: the fragments of two runs of reads
   * one after the other are the fragments of the first run followed by those
   * of the second. A line split across two chunks is therefore treated as two
   * separate lines, never reassembled.
   */
  lemma {:induction false} StreamCallbacksAppend(r1: seq<string>, r2: seq<string>, keep: string -> bool, step: string -> Option<string>)
    ensures StreamCallbacks(r1 + r2, keep, step) == StreamCallbacks(r1, keep, step) + StreamCallbacks(r2, keep, step)
    decreases |r2|
  {
    if |r2| == 0 {
      assert r1 + r2 == r1;
    } else {
      var r2', last := r2[..|r2| - 1], r2[|r2| - 1];
      assert r2 == r2' + [last];
      assert r1 + r2 == (r1 + r2') + [last] by {
        AppendAssoc(r1, r2', [last]);
      }
      var x, y, z := StreamCallbacks(r1, keep, step), StreamCallbacks(r2', keep, step), ReadCallbacks(last, keep, step);
      calc {
        StreamCallbacks(r1 + r2, keep, step);
        { StreamCallbacksSnoc(r1 + r2', last, keep, step); }
        StreamCallbacks(r1 + r2', keep, step) + z;
        { StreamCallbacksAppend(r1, r2', keep, step); }
        (x + y) + z;
        { AppendAssoc(x, y, z); }
        x + (y + z);
        { StreamCallbacksSnoc(r2', last, keep, step); }
        x + StreamCallbacks(r2, keep, step);
      }
    }
  }

  lemma AppendAssoc<T>(x: seq<T>, y: seq<T>, z: seq<T>)
    ensures (x + y) + z == x + (y + z)
  {
  }

  /** One more read appends what it delivers. */
  lemma StreamCallbacksSnoc(chunks: seq<string>, read: string, keep: string -> bool, step: string -> Option<string>)
    ensures StreamCallbacks(chunks + [read], keep, step) == StreamCallbacks(chunks, keep, step) + ReadCallbacks(read, keep, step)
  {
    assert (chunks + [read])[..|chunks|] == chunks;
  }

  /** A stream of reads delivers, read by read, what each read delivers on its own. */
  lemma {:induction false} StreamCallbacksSingle(read: string, keep: string -> bool, step: string -> Option<string>)
    ensures StreamCallbacks([read], keep, step) == ReadCallbacks(read, keep, step)
  {
    assert [read][..0] == [];
  }

  /** The fragments of lines followed by one more line. */
  lemma {:induction false} LinesCallbacksSnoc(lines: seq<string>, line: string, step: string -> Option<string>)
    ensures LinesCallbacks(lines + [line], step) == LinesCallbacks(lines, step) + Delivered(step(line))
  {
    assert (lines + [line])[..|lines|] == lines;
  }

  /** A run of lines delivers at most one fragment per line, and only from lines whose step yields one. */
  lemma {:induction false} LinesCallbacksBound(lines: seq<string>, step: string -> Option<string>)
    ensures |LinesCallbacks(lines, step)| <= |lines|
    ensures (forall k | 0 <= k < |lines| :: step(lines[k]).None?) ==> LinesCallbacks(lines, step) == []
    decreases |lines|
  {
    if |lines| > 0 {
      var init := lines[..|lines| - 1];
      assert forall k | 0 <= k < |init| :: init[k] == lines[k];
      LinesCallbacksBound(init, step);
    }
  }

  /** Splitting a read that holds no newline gives the read itself as the only line. */
  lemma {:induction false} SplitWithoutNewline(s: string)
    requires '\n' !in s
    ensures Split(s, '\n') == [s]
    decreases |s|
  {
    if s != [] {
      assert '\n' !in s[1..] by {
        forall k | 0 <= k < |s[1..]| ensures s[1..][k] != '\n' { assert s[1..][k] == s[k + 1]; }
      }
      SplitWithoutNewline(s[1..]);
    }
  }

  /** A read with no newline visits that one line if it is kept, and nothing otherwise. */
  lemma {:induction false} SingleLineRead(read: string, keep: string -> bool, step: string -> Option<string>)
    requires '\n' !in read
    ensures ReadCallbacks(read, keep, step) == if keep(read) then Delivered(step(read)) else []
  {
    SplitWithoutNewline(read);
    assert [read][1..] == [];
    if keep(read) {
      LinesCallbacksSnoc([], read, step);
      assert [] + [read] == [read];
    }
  }

  /** A stream made of one read with no newline delivers what that one line delivers, if it is kept. */
  lemma SingleReadStream(read: string, keep: string -> bool, step: string -> Option<string>)
    requires '\n' !in read
    ensures StreamCallbacks([read], keep, step) == if keep(read) then Delivered(step(read)) else []
  {
    StreamCallbacksSingle(read, keep, step);
    SingleLineRead(read, keep, step);
  }

  /** Reads that are single lines, none of them kept, deliver nothing. */
  lemma {:induction false} UnkeptReadsDeliverNothing(chunks: seq<string>, keep: string -> bool, step: string -> Option<string>)
    requires forall k | 0 <= k < |chunks| :: '\n' !in chunks[k] && !keep(chunks[k])
    ensures StreamCallbacks(chunks, keep, step) == []
    decreases |chunks|
  {
    if |chunks| > 0 {
      var init := chunks[..|chunks| - 1];
      assert forall k | 0 <= k < |init| :: init[k] == chunks[k];
      UnkeptReadsDeliverNothing(init, keep, step);
      SingleLineRead(chunks[|chunks| - 1], keep, step);
    }
  }

  /** Two single-line reads, neither kept, deliver nothing. */
  lemma TwoUnkeptReads(a: string, b: string, keep: string -> bool, step: string -> Option<string>)
    requires '\n' !in a && '\n' !in b && !keep(a) && !keep(b)
    ensures StreamCallbacks([a, b], keep, step) == []
  {
    UnkeptReadsDeliverNothing([a, b], keep, step);
  }
}

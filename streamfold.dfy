/**
 * The `for await (const chunk of stream)` loop of the SDK-based adapters
 * (gemini, openai, anthropic, groq). Each chunk either delivers a fragment
 * (appended to `fullText` and passed to `onStream`), delivers nothing, or
 * throws, which ends the loop and sends the error to the adapter's `catch`.
 * How a chunk is read is a parameter each adapter supplies.
 */
module StreamFold {
  import opened Wrappers
  import opened JsString

  /** What the loop body does with one chunk. */
  datatype Step = Emit(text: string) | Skip | Throw(message: string)

  /** The fragments delivered so far and the error that stopped the loop, if any. */
  datatype FoldState = FoldState(calls: seq<string>, thrown: Option<string>)

  /** The state after the loop has looked at `chunks`, in order; after a throw nothing more happens. */
  function FoldRun<C>(chunks: seq<C>, step: C -> Step): FoldState
    decreases |chunks|
  {
    if |chunks| == 0 then FoldState([], None)
    else
      var prev := FoldRun(chunks[..|chunks| - 1], step);
      if prev.thrown.Some? then prev
      else match step(chunks[|chunks| - 1])
        case Emit(t) => FoldState(prev.calls + [t], None)
        case Skip => prev
        case Throw(m) => FoldState(prev.calls, Some(m))
  }

  /** The fragments of the chunks whose step emits, in order. */
  function Emitted<C>(chunks: seq<C>, step: C -> Step): seq<string>
    decreases |chunks|
  {
    if |chunks| == 0 then []
    else Emitted(chunks[..|chunks| - 1], step) + (if step(chunks[|chunks| - 1]).Emit? then [step(chunks[|chunks| - 1]).text] else [])
  }

  /**
   * The loop itself: `fullText` is what the adapter returns, `calls` the
   * arguments passed to `onStream`, `thrown` the error that left the loop.
   */
  method Fold<C>(chunks: seq<C>, step: C -> Step) returns (fullText: string, calls: seq<string>, thrown: Option<string>)
    ensures FoldState(calls, thrown) == FoldRun(chunks, step)
    ensures fullText == Concat(calls)
  {
    fullText, calls, thrown := "", [], None;
    var i := 0;
    while i < |chunks| && thrown.None?
      invariant 0 <= i <= |chunks|
      invariant FoldState(calls, thrown) == FoldRun(chunks[..i], step)
      invariant thrown.Some? ==> FoldRun(chunks[..i], step) == FoldRun(chunks, step)
      invariant fullText == Concat(calls)
    {
      assert chunks[..i + 1][..i] == chunks[..i];
      match step(chunks[i]) {
        case Emit(t) =>
          ConcatAppend(calls, [t]);
          fullText := fullText + t;
          calls := calls + [t];
        case Skip =>
        case Throw(m) =>
          thrown := Some(m);
          FoldRunStuck(chunks[..i + 1], chunks[i + 1..], step);
          assert chunks[..i + 1] + chunks[i + 1..] == chunks;
      }
      i := i + 1;
    }
    if thrown.None? {
      assert chunks[..i] == chunks;
    }
  }

  /** Once a chunk has thrown, later chunks change nothing. */
  lemma {:induction false} FoldRunStuck<C>(done: seq<C>, rest: seq<C>, step: C -> Step)
    requires FoldRun(done, step).thrown.Some?
    ensures FoldRun(done + rest, step) == FoldRun(done, step)
    decreases |rest|
  {
    if |rest| == 0 {
      assert done + rest == done;
    } else {
      var rest' := rest[..|rest| - 1];
      assert (done + rest)[..|done + rest| - 1] == done + rest';
      FoldRunStuck(done, rest', step);
    }
  }

  /** When no chunk throws, the loop completes and delivers every emitted fragment in order. */
  lemma {:induction false} FoldRunNoThrow<C>(chunks: seq<C>, step: C -> Step)
    requires forall k | 0 <= k < |chunks| :: !step(chunks[k]).Throw?
    ensures FoldRun(chunks, step) == FoldState(Emitted(chunks, step), None)
    decreases |chunks|
  {
    if |chunks| > 0 {
      var init := chunks[..|chunks| - 1];
      assert forall k | 0 <= k < |init| :: init[k] == chunks[k];
      FoldRunNoThrow(init, step);
    }
  }

  /**
   * The first chunk that throws ends the stream: the fragments delivered are
   * those emitted before it, and its error is the one raised.
   */
  lemma {:induction false} FoldRunFirstThrow<C>(chunks: seq<C>, step: C -> Step, k: nat)
    requires k < |chunks| && step(chunks[k]).Throw?
    requires forall j | 0 <= j < k :: !step(chunks[j]).Throw?
    ensures FoldRun(chunks, step) == FoldState(Emitted(chunks[..k], step), Some(step(chunks[k]).message))
  {
    var before := chunks[..k];
    assert forall j | 0 <= j < |before| :: before[j] == chunks[j];
    FoldRunNoThrow(before, step);
    assert chunks[..k + 1][..k] == before;
    FoldRunStuck(chunks[..k + 1], chunks[k + 1..], step);
    assert chunks[..k + 1] + chunks[k + 1..] == chunks;
  }

  /** When every chunk emits, the loop delivers one fragment per chunk, in order. */
  lemma {:induction false} EmittedEach<C>(chunks: seq<C>, step: C -> Step)
    requires forall k | 0 <= k < |chunks| :: step(chunks[k]).Emit?
    ensures |Emitted(chunks, step)| == |chunks|
    ensures forall k | 0 <= k < |chunks| :: Emitted(chunks, step)[k] == step(chunks[k]).text
    decreases |chunks|
  {
    if |chunks| > 0 {
      var init := chunks[..|chunks| - 1];
      assert forall k | 0 <= k < |init| :: init[k] == chunks[k];
      EmittedEach(init, step);
    }
  }

  /** When no chunk emits an empty fragment, no call of `onStream` receives one. */
  lemma {:induction false} FoldRunNonEmptyCalls<C>(chunks: seq<C>, step: C -> Step)
    requires forall k | 0 <= k < |chunks| :: step(chunks[k]).Emit? ==> step(chunks[k]).text != ""
    ensures forall k | 0 <= k < |FoldRun(chunks, step).calls| :: FoldRun(chunks, step).calls[k] != ""
    decreases |chunks|
  {
    if |chunks| > 0 {
      var init := chunks[..|chunks| - 1];
      assert forall k | 0 <= k < |init| :: init[k] == chunks[k];
      FoldRunNonEmptyCalls(init, step);
    }
  }
}

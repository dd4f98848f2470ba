/** The microphone loop `process_audio`: blocks are taken from the capture
    queue in order, fed to the segmenter, and every finished clip is handed to
    the speech engine, whose outcome is trimmed and appended to the line
    store. The queue is a finite sequence of blocks, the engine an opaque
    function from a clip to its outcome, and the clock a function from the
    number of the clip to the time read while it is recorded. */
module Pipeline {
  import opened Wrappers
  import opened Config
  import opened Transcriber
  import opened Lines
  import opened Segmentation

  /** The lines the loop appends for `clips`, in clip order: one per clip
      whose engine outcome is a non-blank text, stamped with the clock
      reading for that clip. */
  function Transcripts(clips: seq<seq<Sample>>, engine: seq<Sample> -> EngineOutcome, clock: nat -> real): seq<Line>
  {
    if clips == [] then []
    else
      var n := |clips| - 1;
      Transcripts(clips[..n], engine, clock) + LinesOf(engine(clips[n]), clock(n))
  }

  /** Every appended line carries text the engine produced, trimmed, and
      never an empty or whitespace-only one; there is at most one per clip. */
  lemma {:induction false} TranscriptsDetected(clips: seq<seq<Sample>>, engine: seq<Sample> -> EngineOutcome, clock: nat -> real)
    ensures |Transcripts(clips, engine, clock)| <= |clips|
    ensures forall k :: 0 <= k < |Transcripts(clips, engine, clock)| ==> Trimmed(Transcripts(clips, engine, clock)[k].text)
  {
    if clips != [] {
      var n := |clips| - 1;
      TranscriptsDetected(clips[..n], engine, clock);
      var before := Transcripts(clips[..n], engine, clock);
      var added := LinesOf(engine(clips[n]), clock(n));
      assert |added| <= 1 && forall k :: 0 <= k < |added| ==> Trimmed(added[k].text);
      var t := before + added;
      forall k | 0 <= k < |t| ensures Trimmed(t[k].text) {
        if k < |before| { assert t[k] == before[k]; } else { assert t[k] == added[k - |before|]; }
      }
    }
  }

  /** A clip whose engine call fails adds no line, and the clip after it is
      still transcribed: its line follows the lines of the clips before the
      failure. */
  lemma FailedClipSkipped(clips: seq<seq<Sample>>, k: nat, engine: seq<Sample> -> EngineOutcome, clock: nat -> real)
    requires k + 1 < |clips| && engine(clips[k]) == EngineFailed
    ensures Transcripts(clips[..k + 1], engine, clock) == Transcripts(clips[..k], engine, clock)
    ensures Transcripts(clips[..k + 2], engine, clock)
              == Transcripts(clips[..k], engine, clock) + LinesOf(engine(clips[k + 1]), clock(k + 1))
  {
    assert clips[..k + 1][..k] == clips[..k];
    assert clips[..k + 2][..k + 1] == clips[..k + 1];
  }

  lemma TranscriptsNext(clips: seq<seq<Sample>>, x: seq<Sample>, engine: seq<Sample> -> EngineOutcome, clock: nat -> real)
    ensures Transcripts(clips + [x], engine, clock) == Transcripts(clips, engine, clock) + LinesOf(engine(x), clock(|clips|))
  {
    assert (clips + [x])[..|clips|] == clips;
  }

  lemma SplitNext(queue: seq<seq<Sample>>, i: nat)
    requires i < |queue|
    ensures var c := Split(queue[..i]);
      var st := Feed(c.rest, queue[i]);
      Split(queue[..i + 1]) == Cut(c.clips + ClipList(st.clip), st.buffer)
  {
    assert queue[..i + 1][..i] == queue[..i];
  }

  /** One pass of the loop body for one queued block. When the block
      completes a clip, the engine's outcome for that clip is recorded and
      the buffer is empty afterwards whatever that outcome was, a failure
      included; otherwise the store is untouched. */
  method ProcessBlock(seg: Segmenter, store: LineStore, block: seq<Sample>,
                      engine: seq<Sample> -> EngineOutcome, ts: real)
    returns (clip: Option<seq<Sample>>)
    requires seg.Valid() && store.Valid()
    modifies seg, store
    ensures seg.Valid() && store.Valid()
    ensures Step(clip, seg.buffer) == Feed(old(seg.buffer), block)
    ensures clip.Some? ==> seg.buffer == [] && store.history == old(store.history) + LinesOf(engine(clip.value), ts)
    ensures clip.None? ==> store.history == old(store.history) && store.lines == old(store.lines)
  {
    clip := seg.Push(block);
    if clip.Some? {
      store.Record(engine(clip.value), ts);
    }
  }

  /** The loop over the queued blocks `queue`, from an empty buffer. The
      clips sent to the engine are those of the segmenter run over the queue,
      and the store has gained exactly their transcripts, in order, keeping
      only the newest MAX_LINES. */
  method ProcessAudio(queue: seq<seq<Sample>>, engine: seq<Sample> -> EngineOutcome,
                      clock: nat -> real, store: LineStore)
    requires store.Valid()
    modifies store
    ensures store.Valid()
    ensures store.history == old(store.history) + Transcripts(Split(queue).clips, engine, clock)
    ensures store.lines == Window(old(store.history) + Transcripts(Split(queue).clips, engine, clock))
  {
    var seg := new Segmenter();
    var clips: nat := 0;
    var i := 0;
    assert queue[..i] == [];
    while i < |queue|
      invariant i <= |queue|
      invariant seg.Valid() && store.Valid()
      invariant Processed(queue, i, seg.buffer, clips, old(store.history), store.history, engine, clock)
    {
      ghost var history := store.history;
      ghost var buffer := seg.buffer;
      var clip := ProcessBlock(seg, store, queue[i], engine, clock(clips));
      AudioStep(queue, i, engine, clock, buffer, clips, clip, seg.buffer, old(store.history), history, store.history);
      if clip.Some? {
        clips := clips + 1;
      }
      i := i + 1;
    }
    assert queue[..i] == queue;
  }

  /** After `i` blocks of `queue`: the buffer and the number of clips are
      those of the segmenter run over them, and the history has gained the
      transcripts of those clips. */
  ghost predicate Processed(queue: seq<seq<Sample>>, i: nat, buffer: seq<Sample>, clips: nat,
                            h0: seq<Line>, h: seq<Line>, engine: seq<Sample> -> EngineOutcome, clock: nat -> real)
  {
    && i <= |queue|
    && buffer == Split(queue[..i]).rest
    && clips == |Split(queue[..i]).clips|
    && h == h0 + Transcripts(Split(queue[..i]).clips, engine, clock)
  }

  /** One turn of the loop keeps the relation between the blocks read, the
      buffer, and the lines recorded. */
  lemma AudioStep(queue: seq<seq<Sample>>, i: nat, engine: seq<Sample> -> EngineOutcome, clock: nat -> real,
                  buffer: seq<Sample>, clips: nat, clip: Option<seq<Sample>>, buffer': seq<Sample>,
                  h0: seq<Line>, h: seq<Line>, h': seq<Line>)
    requires i < |queue| && Processed(queue, i, buffer, clips, h0, h, engine, clock)
    requires Step(clip, buffer') == Feed(buffer, queue[i])
    requires clip.Some? ==> h' == h + LinesOf(engine(clip.value), clock(clips))
    requires clip.None? ==> h' == h
    ensures Processed(queue, i + 1, buffer', if clip.Some? then clips + 1 else clips, h0, h', engine, clock)
  {
    var before := Split(queue[..i]);
    SplitNext(queue, i);
    if clip.Some? {
      assert Split(queue[..i + 1]).clips == before.clips + [clip.value];
      TranscriptsNext(before.clips, clip.value, engine, clock);
    } else {
      assert Split(queue[..i + 1]).clips == before.clips;
    }
  }

  /** Four transcriptions "a", "b", "c", "d" (any four lines), with a blank
      result and an engine failure between them, leave exactly the last
      three, oldest first. */
  method FourTranscriptions(a: Line, b: Line, c: Line, d: Line, blank: string, ts: real)
    returns (snap: seq<Line>)
    requires AllSpace(blank)
    ensures snap == [b, c, d]
  {
    var store := new LineStore();
    store.Append(a.text, a.ts);
    assert store.lines == [a];
    store.Record(Transcribed(blank), ts);
    store.Record(EngineFailed, ts);
    assert store.lines == [a];
    store.Append(b.text, b.ts);
    store.Append(c.text, c.ts);
    assert store.lines == [a, b, c];
    store.Append(d.text, d.ts);
    snap := store.Snapshot();
  }
}

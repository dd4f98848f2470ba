/** The shared list of recent transcript lines (`last_lines`) and the only
    two ways the service changes it: one append followed by a cut to the
    newest MAX_LINES entries, each done under the lock and therefore
    modelled as one atomic method. */
module Lines {
  import opened Wrappers
  import opened Config
  import opened Transcriber

  /** One transcript line: its text and the clock reading taken when it was
      detected (`time.time()`, seconds since the epoch). */
  datatype Line = Line(text: string, ts: real)

  /** What remains of a history `h` after the cut `last_lines[-MAX_LINES:]`:
      never more than MAX_LINES lines. */
  function Window(h: seq<Line>): (w: seq<Line>)
    ensures |w| <= MAX_LINES
  {
    if |h| > MAX_LINES then h[|h| - MAX_LINES..] else h
  }

  /** The window is the newest min(MAX_LINES, |h|) lines of `h`, oldest
      first, in insertion order. */
  lemma WindowNewest(h: seq<Line>)
    ensures |Window(h)| == if |h| <= MAX_LINES then |h| else MAX_LINES
    ensures forall k :: 0 <= k < |Window(h)| ==> Window(h)[k] == h[|h| - |Window(h)| + k]
  {
  }

  /** Cutting after every append keeps exactly the window of the whole
      history: the store never needs to remember more than its window. */
  lemma WindowAppend(h: seq<Line>, x: Line)
    ensures Window(Window(h) + [x]) == Window(h + [x])
  {
    var w := Window(h);
    if |h| > MAX_LINES {
      assert (w + [x])[1..] == (h + [x])[|h| + 1 - MAX_LINES..];
    }
  }

  /** The lines the loop appends for one engine outcome: none on failure or
      a blank text, otherwise one line with the trimmed text and `ts`. */
  function LinesOf(outcome: EngineOutcome, ts: real): seq<Line>
  {
    match Detected(outcome)
    case None => []
    case Some(text) => [Line(text, ts)]
  }

  /** The process-wide line store. `history` is every line ever appended;
      the invariant says the store holds the newest MAX_LINES of them in
      insertion order. */
  class LineStore {
    var lines: seq<Line>
    ghost var history: seq<Line>

    ghost predicate Valid()
      reads this
    {
      lines == Window(history)
    }

    constructor ()
      ensures Valid() && lines == [] && history == []
    {
      lines := [];
      history := [];
    }

    /** `last_lines.append((text, ts))` followed by the cut to the last
      MAX_LINES entries when the list has grown past MAX_LINES. */
    method Append(text: string, ts: real)
      requires Valid()
      modifies this
      ensures Valid()
      ensures history == old(history) + [Line(text, ts)]
      ensures lines == Window(old(lines) + [Line(text, ts)])
    {
      WindowAppend(history, Line(text, ts));
      lines := lines + [Line(text, ts)];
      if |lines| > MAX_LINES {
        lines := lines[|lines| - MAX_LINES..];
      }
      history := history + [Line(text, ts)];
    }

    /** The strip-and-append step of the loop: the engine's text is trimmed
      and appended only when something is left; an engine failure or a blank
      text leaves the store as it was. */
    method Record(outcome: EngineOutcome, ts: real)
      requires Valid()
      modifies this
      ensures Valid()
      ensures history == old(history) + LinesOf(outcome, ts)
      ensures lines == Window(old(lines) + LinesOf(outcome, ts))
      ensures Detected(outcome).None? ==> lines == old(lines)
    {
      match outcome
      case EngineFailed =>
      case Transcribed(raw) =>
        var text := Strip(raw);
        if text != [] {
          Append(text, ts);
        }
    }

    /** `list(last_lines)` taken under the lock: a copy of the current lines. */
    method Snapshot() returns (snap: seq<Line>)
      requires Valid()
      ensures snap == lines
      ensures |snap| <= MAX_LINES
    {
      snap := lines;
    }
  }
}

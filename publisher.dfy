/** The per-viewer event stream of `/stream`: every poll takes a snapshot of
    the line store and sends it, as a list of `{text, ts}` records oldest
    first, only when it differs by value from the last snapshot sent. */
module Publisher {
  import opened Wrappers
  import opened Lines

  /** One `{"text": t, "ts": ts}` object of an event's JSON array. */
  datatype LineRecord = LineRecord(text: string, ts: real)

  /** `[{"text": t, "ts": ts} for (t, ts) in cur]`: one record per line, in
      the same order, carrying that line's text and timestamp. */
  function Payload(cur: seq<Line>): (p: seq<LineRecord>)
    ensures |p| == |cur|
    ensures forall i :: 0 <= i < |p| ==> p[i].text == cur[i].text && p[i].ts == cur[i].ts
  {
    if cur == [] then [] else [LineRecord(cur[0].text, cur[0].ts)] + Payload(cur[1..])
  }

  /** The payload determines the snapshot it was made from, so two different
      snapshots never produce the same event. */
  lemma PayloadInjective(a: seq<Line>, b: seq<Line>)
    requires Payload(a) == Payload(b)
    ensures a == b
  {
    assert |a| == |b|;
    forall i | 0 <= i < |a| ensures a[i] == b[i] {
      assert Payload(a)[i] == Payload(b)[i];
    }
  }

  /** One viewer connection; `prev` is the last snapshot sent on it, `None`
      before the first event. */
  class EventStream {
    var prev: Option<seq<Line>>

    constructor ()
      ensures prev == None
    {
      prev := None;
    }

    /** One turn of the generator loop with snapshot `cur`: emit an event iff
      `cur != prev`, and remember `cur` as the last snapshot sent. */
    method Poll(cur: seq<Line>) returns (event: Option<seq<LineRecord>>)
      modifies this
      ensures event.Some? <==> old(prev) != Some(cur)
      ensures event.Some? ==> event.value == Payload(cur)
      ensures prev == Some(cur)
    {
      if Some(cur) != prev {
        event := Some(Payload(cur));
        prev := Some(cur);
      } else {
        event := None;
      }
    }
  }

  /** The last snapshot sent after polling `snaps` starting from `prev`:
      after any poll, sent or not, it is the snapshot just taken. */
  function LastSent(prev: Option<seq<Line>>, snaps: seq<seq<Line>>): Option<seq<Line>>
  {
    if snaps == [] then prev else Some(snaps[|snaps| - 1])
  }

  /** The events a connection sends while polling the snapshots `snaps` in
      order, starting from last-sent value `prev`. */
  function Stream(prev: Option<seq<Line>>, snaps: seq<seq<Line>>): seq<seq<LineRecord>>
  {
    if snaps == [] then []
    else
      var init, cur := snaps[..|snaps| - 1], snaps[|snaps| - 1];
      Stream(prev, init) + (if LastSent(prev, init) != Some(cur) then [Payload(cur)] else [])
  }

  /** The `event_stream` generator over a finite run of polls: a fresh
      connection polls each snapshot in turn and yields the events. */
  method EventLoop(snaps: seq<seq<Line>>) returns (events: seq<seq<LineRecord>>)
    ensures events == Stream(None, snaps)
  {
    var conn := new EventStream();
    events := [];
    var i := 0;
    while i < |snaps|
      invariant 0 <= i <= |snaps|
      invariant conn.prev == LastSent(None, snaps[..i])
      invariant events == Stream(None, snaps[..i])
    {
      var event := conn.Poll(snaps[i]);
      assert snaps[..i + 1][..i] == snaps[..i];
      if event.Some? {
        events := events + [event.value];
      }
      i := i + 1;
    }
    assert snaps[..i] == snaps;
  }

  /** Whatever was sent last is the latest snapshot: a connection that has
      sent anything shows the current state, and a fresh connection always
      sends on its first poll. */
  lemma {:induction false} StreamLatest(prev: Option<seq<Line>>, snaps: seq<seq<Line>>)
    ensures prev == None && snaps != [] ==> Stream(prev, snaps) != []
    ensures Stream(prev, snaps) != [] ==>
              snaps != [] && Stream(prev, snaps)[|Stream(prev, snaps)| - 1] == Payload(snaps[|snaps| - 1])
  {
    if snaps != [] {
      var init := snaps[..|snaps| - 1];
      StreamLatest(prev, init);
    }
  }

  /** Polling an unchanged snapshot sends at most one event, and none at all
      when it was already the last one sent. */
  lemma {:induction false} StreamSteady(prev: Option<seq<Line>>, s: seq<Line>, snaps: seq<seq<Line>>)
    requires forall k :: 0 <= k < |snaps| ==> snaps[k] == s
    ensures |Stream(prev, snaps)| <= 1
    ensures prev == Some(s) ==> Stream(prev, snaps) == []
    ensures prev != Some(s) && snaps != [] ==> Stream(prev, snaps) == [Payload(s)]
  {
    if snaps != [] {
      var init := snaps[..|snaps| - 1];
      StreamSteady(prev, s, init);
    }
  }

  /** No two consecutive events carry the same payload: every event reports
      a change. */
  lemma {:induction false} StreamNoRepeat(prev: Option<seq<Line>>, snaps: seq<seq<Line>>)
    ensures var ev := Stream(prev, snaps);
      forall k :: 0 <= k < |ev| - 1 ==> ev[k] != ev[k + 1]
  {
    if snaps != [] {
      var init, cur := snaps[..|snaps| - 1], snaps[|snaps| - 1];
      StreamNoRepeat(prev, init);
      var before := Stream(prev, init);
      if LastSent(prev, init) != Some(cur) && before != [] {
        StreamLatest(prev, init);
        var last := init[|init| - 1];
        if Payload(last) == Payload(cur) {
          PayloadInjective(last, cur);
        }
        var ev := Stream(prev, snaps);
        assert ev == before + [Payload(cur)];
        forall k | 0 <= k < |ev| - 1 ensures ev[k] != ev[k + 1] {
          if k < |before| - 1 {
            assert ev[k] == before[k] && ev[k + 1] == before[k + 1];
          }
        }
      }
    }
  }
}

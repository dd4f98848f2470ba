/** The segmenter of the microphone loop: blocks of samples taken from the
    capture queue are appended to a buffer, and once the buffer holds at
    least 1.5 seconds of audio it is handed on as one clip and emptied.
    Sample values are opaque here; only their order and number matter. */
module Segmentation {
  import opened Wrappers
  import opened Config

  type Sample = int

  /** All samples of `ss`, one sequence after the other. */
  function Concat(ss: seq<seq<Sample>>): seq<Sample>
  {
    if ss == [] then [] else Concat(ss[..|ss| - 1]) + ss[|ss| - 1]
  }

  lemma ConcatSnoc(ss: seq<seq<Sample>>, x: seq<Sample>)
    ensures Concat(ss + [x]) == Concat(ss) + x
  {
    assert (ss + [x])[..|ss|] == ss;
  }

  /** The samples an optional clip carries. */
  function Samples(clip: Option<seq<Sample>>): seq<Sample>
  {
    if clip.Some? then clip.value else []
  }

  /** The outcome of one step: the clip emitted, if any, and the new buffer. */
  datatype Step = Step(clip: Option<seq<Sample>>, buffer: seq<Sample>)

  /** One pass of the loop over one block: append it, and emit and reset the
      buffer when it has reached the clip length. No sample is lost or
      duplicated; a clip is emitted exactly when the grown buffer reaches
      the threshold, and it is at least the clip length and (starting from a
      buffer under the threshold) shorter than the clip length plus the
      block just appended. */
  function Feed(buffer: seq<Sample>, block: seq<Sample>): (r: Step)
    ensures Samples(r.clip) + r.buffer == buffer + block
    ensures r.clip.Some? <==> ClipReached(|buffer| + |block|)
    ensures r.clip.Some? ==> r.buffer == [] && CLIP_SAMPLES <= |r.clip.value|
    ensures !ClipReached(|buffer|) ==> !ClipReached(|r.buffer|)
    ensures !ClipReached(|buffer|) && r.clip.Some? ==> |r.clip.value| < CLIP_SAMPLES + |block|
  {
    var grown := buffer + block;
    if ClipReached(|grown|) then Step(Some(grown), []) else Step(None, grown)
  }

  /** The clips emitted so far and the samples still buffered. */
  datatype Cut = Cut(clips: seq<seq<Sample>>, rest: seq<Sample>)

  /** Running the segmenter from an empty buffer over `blocks`, in queue
      order. The clips followed by the buffer are exactly the samples read,
      every clip has reached the clip length and the buffer has not. */
  function Split(blocks: seq<seq<Sample>>): (c: Cut)
    ensures Concat(c.clips) + c.rest == Concat(blocks)
    ensures !ClipReached(|c.rest|)
    ensures forall k :: 0 <= k < |c.clips| ==> ClipReached(|c.clips[k]|)
    ensures |c.clips| <= |blocks|
  {
    if blocks == [] then Cut([], [])
    else
      var init, block := blocks[..|blocks| - 1], blocks[|blocks| - 1];
      var c := Split(init);
      var st := Feed(c.rest, block);
      var next := Cut(c.clips + ClipList(st.clip), st.buffer);
      SplitStep(init, block, c, st, next);
      next
  }

  /** The clip list contribution of one step: none or the one clip. */
  function ClipList(clip: Option<seq<Sample>>): seq<seq<Sample>>
  {
    if clip.Some? then [clip.value] else []
  }

  lemma SplitStep(init: seq<seq<Sample>>, block: seq<Sample>, c: Cut, st: Step, next: Cut)
    requires Concat(c.clips) + c.rest == Concat(init)
    requires !ClipReached(|c.rest|)
    requires forall k :: 0 <= k < |c.clips| ==> ClipReached(|c.clips[k]|)
    requires st == Feed(c.rest, block)
    requires next == Cut(c.clips + ClipList(st.clip), st.buffer)
    ensures Concat(next.clips) + next.rest == Concat(init + [block])
    ensures !ClipReached(|next.rest|)
    ensures forall k :: 0 <= k < |next.clips| ==> ClipReached(|next.clips[k]|)
  {
    ConcatSnoc(init, block);
    if st.clip.Some? {
      ConcatSnoc(c.clips, st.clip.value);
    } else {
      assert next.clips == c.clips;
    }
  }

  /** Every clip is shorter than the clip length plus the longest block. */
  lemma {:induction false} ClipsBoundedByBlocks(blocks: seq<seq<Sample>>, m: nat)
    requires forall k :: 0 <= k < |blocks| ==> |blocks[k]| <= m
    ensures forall k :: 0 <= k < |Split(blocks).clips| ==> |Split(blocks).clips[k]| < CLIP_SAMPLES + m
  {
    if blocks != [] {
      ClipsBoundedByBlocks(blocks[..|blocks| - 1], m);
    }
  }

  /** With the device's fixed block size of 2048 samples every clip is exactly
      twelve blocks (24576 samples), one clip is emitted per twelve blocks, and
      the buffer holds the blocks read since the last clip. */
  lemma {:induction false} FixedBlockClips(blocks: seq<seq<Sample>>)
    requires forall k :: 0 <= k < |blocks| ==> |blocks[k]| == BLOCKSIZE
    ensures |Split(blocks).rest| == BLOCKSIZE * (|blocks| % 12)
    ensures |Split(blocks).clips| == |blocks| / 12
    ensures forall k :: 0 <= k < |Split(blocks).clips| ==> |Split(blocks).clips[k]| == 12 * BLOCKSIZE
  {
    if blocks != [] {
      var init := blocks[..|blocks| - 1];
      FixedBlockClips(init);
      var n := |init|;
      var c := Split(init);
      var grown := |c.rest| + BLOCKSIZE;
      assert grown == BLOCKSIZE * (n % 12 + 1);
      if n % 12 == 11 {
        assert grown == 24576;
        assert |blocks| % 12 == 0 && |blocks| / 12 == n / 12 + 1;
      } else {
        assert grown <= 22528;
        assert |blocks| % 12 == n % 12 + 1 && |blocks| / 12 == n / 12;
      }
    }
  }

  /** The microphone loop's buffer, stepped one queued block at a time. */
  class Segmenter {
    var buffer: seq<Sample>

    /** Between steps the buffer is always under the clip length. */
    ghost predicate Valid()
      reads this
    {
      !ClipReached(|buffer|)
    }

    /** `buffer = np.zeros(0)`: the loop starts with an empty buffer. */
    constructor ()
      ensures Valid() && buffer == []
    {
      buffer := [];
    }

    /** `buffer = np.concatenate((buffer, block))`, then, once the buffer
      holds 1.5 seconds, hand it on as a clip and reset it to empty. */
    method Push(block: seq<Sample>) returns (clip: Option<seq<Sample>>)
      requires Valid()
      modifies this
      ensures Valid()
      ensures Step(clip, buffer) == Feed(old(buffer), block)
    {
      buffer := buffer + block;
      if ClipReached(|buffer|) {
        clip := Some(buffer);
        buffer := [];
      } else {
        clip := None;
      }
    }
  }
}

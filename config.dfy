/** The fixed configuration constants of the overlay service and the clip
    threshold that the microphone loop compares the buffer against. */
module Config {
  /** Samples per second captured from the microphone. */
  const SAMPLE_RATE: nat := 16000
  /** Samples per block delivered by the capture callback. */
  const BLOCKSIZE: nat := 2048
  /** Number of transcript lines the overlay keeps. */
  const MAX_LINES: nat := 3

  /** The clip length, 1.5 seconds of audio, as a whole number of samples. */
  const CLIP_SAMPLES: nat := 24000

  /** The loop's test `len(buffer) >= SAMPLE_RATE * 1.5`: an integer length
      compared with a floating-point product, written here over the reals. */
  predicate ClipReached(len: nat) {
    len as real >= SAMPLE_RATE as real * 1.5
  }

  /** The floating-point threshold is exactly the integer CLIP_SAMPLES. */
  lemma ClipReachedIff(len: nat)
    ensures ClipReached(len) <==> len >= CLIP_SAMPLES
  {
  }
}

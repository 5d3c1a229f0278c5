/**
 * The natural-movie splicer `generatemovies`: from a raw movie (a sequence
 * of frames), the four variants shown in the experiment, keyed "0" to "3".
 * Frames are opaque values; slicing follows Python's rule of clipping the
 * bounds to the length.
 */
module Movies {

  /** The clip length in frames (9 seconds at 30 frames per second). */
  const ClipLen: nat := 270
  /** The length of one scrub segment (3 seconds). */
  const SegLen: nat := 90

  /** `s[a:b]` for non-negative bounds: both bounds clipped to the length. */
  function Slice<T>(s: seq<T>, a: nat, b: nat): (r: seq<T>)
    ensures a <= b <= |s| ==> r == s[a..b]
    ensures |r| <= |s|
  {
    var hi := if b <= |s| then b else |s|;
    var lo := if a <= |s| then a else |s|;
    if lo <= hi then s[lo..hi] else []
  }

  /** `np.flipud` on a frame sequence: the frames back to front. */
  function Reverse<T>(s: seq<T>): (r: seq<T>)
  {
    seq(|s|, i requires 0 <= i < |s| => s[|s| - 1 - i])
  }

  /** Reversing twice gives back the movie. */
  lemma ReverseTwice<T>(s: seq<T>)
    ensures Reverse(Reverse(s)) == s
  {
    forall i | 0 <= i < |s| ensures Reverse(Reverse(s))[i] == s[i] {
    }
  }

  /** A window of the reversed movie is the reverse of the mirrored window. */
  lemma ReverseWindow<T>(s: seq<T>, a: nat, b: nat)
    requires a <= b <= |s|
    ensures Reverse(s)[a..b] == Reverse(s[|s| - b..|s| - a])
  {
    var w := s[|s| - b..|s| - a];
    forall i | 0 <= i < b - a ensures Reverse(s)[a..b][i] == Reverse(w)[i] {
      assert w[b - a - 1 - i] == s[|s| - 1 - (a + i)];
    }
  }

  /** The four variants of one movie. */
  datatype Variants<T> = Variants(forward: seq<T>, backward: seq<T>, forwardScrub: seq<T>, backwardScrub: seq<T>)

  /**
   * `generatemovies`: the first clip of the movie, its reverse, the first
   * segment forward then backward then forward, and the last segment of
   * the clip backward then forward then backward.
   */
  function GenerateMovies<T>(raw: seq<T>): (v: Variants<T>)
    ensures |v.forward| == (if |raw| < ClipLen then |raw| else ClipLen) && v.forward <= raw
    ensures |v.backward| == |v.forward|
  {
    var short := Slice(raw, 0, ClipLen);
    var reversed := Reverse(short);
    Variants(short, reversed,
             Slice(short, 0, SegLen) + Slice(reversed, 2 * SegLen, ClipLen) + Slice(short, 0, SegLen),
             Slice(reversed, 0, SegLen) + Slice(short, 2 * SegLen, ClipLen) + Slice(reversed, 0, SegLen))
  }

  /** The result as the source's dictionary: exactly the keys "0" to "3". */
  function MovieDict<T>(raw: seq<T>): (d: map<string, seq<T>>)
    ensures d.Keys == {"0", "1", "2", "3"}
    ensures d["0"] == GenerateMovies(raw).forward && d["1"] == GenerateMovies(raw).backward
    ensures d["2"] == GenerateMovies(raw).forwardScrub && d["3"] == GenerateMovies(raw).backwardScrub
  {
    var v := GenerateMovies(raw);
    map["0" := v.forward, "1" := v.backward, "2" := v.forwardScrub, "3" := v.backwardScrub]
  }

  /**
   * For every movie: "0" is its first 270 frames (all of them when shorter)
   * and "1" is exactly "0" back to front.
   */
  lemma ForwardAndBackward<T>(raw: seq<T>)
    ensures var v := GenerateMovies(raw);
            && |v.forward| == (if |raw| < ClipLen then |raw| else ClipLen)
            && v.forward <= raw
            && |v.backward| == |v.forward|
            && (forall i :: 0 <= i < |v.forward| ==> v.backward[i] == v.forward[|v.forward| - 1 - i])
            && Reverse(v.backward) == v.forward
  {
    var v := GenerateMovies(raw);
    forall i | 0 <= i < |v.forward| ensures v.backward[i] == v.forward[|v.forward| - 1 - i] {
    }
    ReverseTwice(v.forward);
  }

  /**
   * Given at least 270 frames, the forward scrub is the first 90 frames,
   * the same backwards, then the same forwards again: 270 frames.
   */
  lemma ForwardScrub<T>(raw: seq<T>)
    requires |raw| >= ClipLen
    ensures var short := raw[..ClipLen];
            var a := short[..SegLen];
            && GenerateMovies(raw).forwardScrub == a + Reverse(a) + a
            && |GenerateMovies(raw).forwardScrub| == ClipLen
  {
    var short := raw[..ClipLen];
    ReverseWindow(short, 2 * SegLen, ClipLen);
    assert short[ClipLen - ClipLen..ClipLen - 2 * SegLen] == short[..SegLen];
  }

  /**
   * Given at least 270 frames, the backward scrub is the last 90 frames of
   * the clip backwards, then forwards, then backwards again: 270 frames.
   */
  lemma BackwardScrub<T>(raw: seq<T>)
    requires |raw| >= ClipLen
    ensures var short := raw[..ClipLen];
            var b := short[2 * SegLen..ClipLen];
            && GenerateMovies(raw).backwardScrub == Reverse(b) + b + Reverse(b)
            && |GenerateMovies(raw).backwardScrub| == ClipLen
  {
    var short := raw[..ClipLen];
    ReverseWindow(short, 0, SegLen);
  }

  /**
   * The two scrubs turn at the 3- and 6-second marks: in the forward scrub
   * frame 90 + i shows frame 89 - i of the clip, and frame 180 + i shows
   * frame i again.
   */
  lemma ScrubTurns<T>(raw: seq<T>, i: nat)
    requires |raw| >= ClipLen && i < SegLen
    ensures GenerateMovies(raw).forwardScrub[SegLen + i] == raw[SegLen - 1 - i]
    ensures GenerateMovies(raw).forwardScrub[2 * SegLen + i] == raw[i]
    ensures GenerateMovies(raw).backwardScrub[SegLen + i] == raw[2 * SegLen + i]
    ensures GenerateMovies(raw).backwardScrub[i] == raw[ClipLen - 1 - i]
  {
    ForwardScrub(raw);
    BackwardScrub(raw);
    var short := raw[..ClipLen];
  }
}

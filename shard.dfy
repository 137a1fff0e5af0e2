/**
 * Shard directories of a zone: the inner loop of `generate` joins `depth`
 * slices of the zone name, each `dir_digit` characters wide, below the
 * zones directory.
 */
module Shard {

  /** Python's `s[a:b]` for non-negative bounds: both are clamped to `len(s)`. */
  function PySlice(s: string, a: nat, b: nat): (r: string)
    ensures a <= b <= |s| ==> r == s[a..b]
  {
    var lo := if a < |s| then a else |s|;
    var hi := if b < |s| then b else |s|;
    if lo < hi then s[lo..hi] else []
  }

  /**
   * The directory segments `zonename[j*width:(j+1)*width]` for `j` in
   * `range(0, depth)`; no segment when `depth <= 0`.
   */
  function Segments(zonename: string, depth: int, width: nat): (r: seq<string>)
    ensures |r| == if depth <= 0 then 0 else depth
  {
    if depth <= 0 then []
    else Segments(zonename, depth - 1, width) + [PySlice(zonename, (depth - 1) * width, depth * width)]
  }

  /** The concatenation of a list of strings. */
  function Concat(ss: seq<string>): string {
    if ss == [] then [] else Concat(ss[..|ss| - 1]) + ss[|ss| - 1]
  }

  /** Segment `j` is the `j`-th slice of the zone name. */
  lemma {:induction false} SegmentAt(zonename: string, depth: nat, width: nat, j: nat)
    requires j < depth
    ensures Segments(zonename, depth, width)[j] == PySlice(zonename, j * width, (j + 1) * width)
  {
    if j < depth - 1 {
      SegmentAt(zonename, depth - 1, width, j);
    }
  }

  /**
   * When the zone name holds at least `2 * depth` characters, the two-wide
   * segments spell its first `2 * depth` characters.
   */
  lemma {:induction false} SegmentsConcat(zonename: string, depth: nat)
    requires 2 * depth <= |zonename|
    ensures Concat(Segments(zonename, depth, 2)) == zonename[..2 * depth]
  {
    if depth > 0 {
      SegmentsConcat(zonename, depth - 1);
      var segs := Segments(zonename, depth, 2);
      assert segs[..depth - 1] == Segments(zonename, depth - 1, 2);
      assert zonename[..2 * depth - 2] + zonename[2 * depth - 2..2 * depth] == zonename[..2 * depth];
    }
  }

  /**
   * Two zone names of at least `2 * depth` characters get the same segments
   * exactly when they agree on their first `2 * depth` characters.
   */
  lemma {:induction false} SameSegments(name1: string, name2: string, depth: nat)
    requires 2 * depth <= |name1| && 2 * depth <= |name2|
    ensures Segments(name1, depth, 2) == Segments(name2, depth, 2)
        <==> name1[..2 * depth] == name2[..2 * depth]
  {
    SegmentsConcat(name1, depth);
    SegmentsConcat(name2, depth);
    if depth > 0 && name1[..2 * depth] == name2[..2 * depth] {
      assert name1[..2 * depth - 2] == name1[..2 * depth][..2 * depth - 2];
      assert name2[..2 * depth - 2] == name2[..2 * depth][..2 * depth - 2];
      SameSegments(name1, name2, depth - 1);
      assert name1[2 * depth - 2..2 * depth] == name1[..2 * depth][2 * depth - 2..];
      assert name2[2 * depth - 2..2 * depth] == name2[..2 * depth][2 * depth - 2..];
    }
  }
}

/**
 * How the factories of HermiteSpline turn one tangent per control point into
 * the per-segment out- and in-tangent arrays, with JavaScript's Array.slice
 * semantics on an empty array.
 */
module TangentSlices {

  /** tangents.slice(0, tangents.length - 1): every tangent but the last. */
  function OutTangentsOf(tangents: seq<real>): (r: seq<real>)
    ensures |r| == if |tangents| == 0 then 0 else |tangents| - 1
    ensures forall i :: 0 <= i < |r| ==> r[i] == tangents[i]
  {
    if |tangents| == 0 then [] else tangents[..|tangents| - 1]
  }

  /** tangents.slice(1, tangents.length): every tangent but the first. */
  function InTangentsOf(tangents: seq<real>): (r: seq<real>)
    ensures |r| == if |tangents| == 0 then 0 else |tangents| - 1
    ensures forall i :: 0 <= i < |r| ==> r[i] == tangents[i + 1]
  {
    if |tangents| == 0 then [] else tangents[1..]
  }

  /**
   * The slices share one tangent per interior control point: the in-tangent
   * that ends segment i is the out-tangent that starts segment i + 1.
   */
  lemma SlicesShareInteriorTangents(tangents: seq<real>)
    ensures forall i :: 0 <= i < |tangents| - 2 ==> InTangentsOf(tangents)[i] == OutTangentsOf(tangents)[i + 1]
  {
  }

  /** The inverse of slicing: the out-tangents followed by the last in-tangent. */
  function MergeTangents(outTangents: seq<real>, inTangents: seq<real>): (r: seq<real>)
    requires |outTangents| == |inTangents| >= 1
    ensures |r| == |outTangents| + 1
  {
    outTangents + [inTangents[|inTangents| - 1]]
  }

  /** Slicing loses nothing: merging the two slices gives the tangents back. */
  lemma MergeAfterSlice(tangents: seq<real>)
    requires |tangents| >= 2
    ensures MergeTangents(OutTangentsOf(tangents), InTangentsOf(tangents)) == tangents
  {
    var m := MergeTangents(OutTangentsOf(tangents), InTangentsOf(tangents));
    forall i | 0 <= i < |tangents| ensures m[i] == tangents[i] {
    }
  }

  /**
   * Exactly the tangent arrays whose interior tangents are shared come from
   * slicing one tangent list.
   */
  lemma SliceAfterMerge(outTangents: seq<real>, inTangents: seq<real>)
    requires |outTangents| == |inTangents| >= 1
    requires forall i :: 0 <= i < |inTangents| - 1 ==> inTangents[i] == outTangents[i + 1]
    ensures OutTangentsOf(MergeTangents(outTangents, inTangents)) == outTangents
    ensures InTangentsOf(MergeTangents(outTangents, inTangents)) == inTangents
  {
    var m := MergeTangents(outTangents, inTangents);
    assert OutTangentsOf(m) == outTangents;
    forall i | 0 <= i < |inTangents| ensures InTangentsOf(m)[i] == inTangents[i] {
      if i < |inTangents| - 1 {
        assert m[i + 1] == outTangents[i + 1];
      }
    }
  }
}

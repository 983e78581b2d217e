/** Prompt batches of whole problem records, and the recursion that merges an oversized cluster. */
module LosslessBatches {
  import opened Basics
  import opened NextFit

  /** Brackets of the serialised list; every record then costs its own bytes and a separator. */
  const LIST_BYTES := 2

  /** A problem record with the bytes it adds to a batch: its JSON text and a separator. */
  type Record = Sized<int>

  method LosslessProblemBatches(problems: seq<Record>, maxBytes: int) returns (batches: seq<seq<Record>>)
    ensures IsNextFit(2, maxBytes, problems, batches)
  {
    batches := Pack(LIST_BYTES, maxBytes, problems);
  }

  /**
   Merging a cluster: an oversized cluster is cut into batches that are merged on their own.
   `sent` lists what reaches the model or is copied as a singleton, `deepest` the deepest call.
   Nothing is lost or reordered, and the recursion goes at most one level down.
   */
  method MergeCluster(cluster: seq<Record>, maxBytes: int, level: nat)
    returns (sent: seq<seq<Record>>, deepest: nat)
    ensures IsNextFit(2, maxBytes, cluster, sent)
    ensures level <= deepest <= level + 1
    ensures IsNextFit(2, maxBytes, cluster, [cluster]) ==> deepest == level
    decreases |cluster|
  {
    var batches := LosslessProblemBatches(cluster, maxBytes);
    deepest := level;
    if |batches| <= 1 {
      sent := batches;
    } else {
      if IsNextFit(LIST_BYTES, maxBytes, cluster, [cluster]) {
        NextFitUnique(LIST_BYTES, maxBytes, cluster, batches, [cluster]);
      }
      sent := [];
      for i := 0 to |batches|
        invariant sent == batches[..i]
        invariant level <= deepest <= level + 1
      {
        var batch := batches[i];
        if |batch| == 1 {
          sent := sent + [batch];
        } else {
          BatchIsShorter(maxBytes, cluster, batches, i);
          BatchIsWhole(maxBytes, cluster, batches, i);
          var part, deep := MergeCluster(batch, maxBytes, level + 1);
          RepackBatch(LIST_BYTES, maxBytes, cluster, batches, i, part);
          sent := sent + part;
          deepest := if deep > deepest then deep else deepest;
        }
      }
      TakeAll(batches);
    }
  }

  lemma {:induction false} BatchIsWhole(maxBytes: int, cluster: seq<Record>, batches: seq<seq<Record>>, i: nat)
    requires IsNextFit(LIST_BYTES, maxBytes, cluster, batches) && i < |batches|
    ensures IsNextFit(LIST_BYTES, maxBytes, batches[i], [batches[i]])
  {
    var whole := [batches[i]];
    assert whole[1..] == [];
    assert Concat(whole) == batches[i] + [];
  }

  lemma {:induction false} BatchIsShorter(maxBytes: int, cluster: seq<Record>, batches: seq<seq<Record>>, i: nat)
    requires IsNextFit(LIST_BYTES, maxBytes, cluster, batches) && i < |batches| && |batches| > 1
    ensures |batches[i]| < |cluster|
  {
    ConcatLength(batches, i);
  }
}

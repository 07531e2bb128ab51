/** Batch classification: groups of five, one pause between consecutive groups, input order kept. */
module Batching {
  import opened Wrappers
  import opened Types
  import opened Classifier

  const BatchSize: nat := 5

  function Min(a: int, b: int): int {
    if a < b then a else b
  }

  /** `s.slice(i, i + 5)` for `i` = 0, 5, 10, ... while `i < |s|`. */
  function Chunks<T>(s: seq<T>): seq<seq<T>>
    decreases |s|
  {
    if s == [] then []
    else if |s| <= BatchSize then [s]
    else [s[..BatchSize]] + Chunks(s[BatchSize..])
  }

  function Flatten<T>(ss: seq<seq<T>>): seq<T> {
    if ss == [] then [] else ss[0] + Flatten(ss[1..])
  }

  /** A slice of a suffix is the slice of the whole shifted by the suffix's start. */
  lemma SliceOfSuffix<T>(s: seq<T>, d: nat, i: nat, j: nat)
    requires d <= |s| && i <= j <= |s| - d
    ensures s[d..][i..j] == s[d + i..d + j]
  {
    var a, b := s[d..][i..j], s[d + i..d + j];
    assert |a| == |b|;
    forall m | 0 <= m < |a|
      ensures a[m] == b[m]
    {
      assert a[m] == s[d + i + m];
    }
  }

  /** Group `k` is the slice starting at `5 * k`; there are `ceil(|s| / 5)` groups. */
  lemma {:induction false} ChunksAreSlices<T>(s: seq<T>)
    ensures |Chunks(s)| == (|s| + 4) / 5
    ensures forall k :: 0 <= k < |Chunks(s)| ==> Chunks(s)[k] == s[5 * k .. Min(5 * k + 5, |s|)]
    decreases |s|
  {
    if |s| > BatchSize {
      var rest := s[BatchSize..];
      ChunksAreSlices(rest);
      var c := Chunks(s);
      assert c == [s[..BatchSize]] + Chunks(rest);
      forall k | 1 <= k < |c|
        ensures c[k] == s[5 * k .. Min(5 * k + 5, |s|)]
      {
        assert c[k] == Chunks(rest)[k - 1];
        assert Min(5 * (k - 1) + 5, |rest|) == Min(5 * k + 5, |s|) - 5;
        SliceOfSuffix(s, BatchSize, 5 * (k - 1), Min(5 * k + 5, |s|) - 5);
      }
    }
  }

  /** Every group holds one to five elements, and all but the last exactly five. */
  lemma ChunkSizes<T>(s: seq<T>)
    ensures forall k :: 0 <= k < |Chunks(s)| ==>
      1 <= |Chunks(s)[k]| <= BatchSize && (k < |Chunks(s)| - 1 ==> |Chunks(s)[k]| == BatchSize)
  {
    ChunksAreSlices(s);
  }

  /** Concatenating the groups gives back the input, in order. */
  lemma {:induction false} ChunksFlatten<T>(s: seq<T>)
    ensures Flatten(Chunks(s)) == s
    decreases |s|
  {
    if |s| > BatchSize {
      ChunksFlatten(s[BatchSize..]);
      var c := Chunks(s);
      assert c[1..] == Chunks(s[BatchSize..]);
      assert s == s[..BatchSize] + s[BatchSize..];
    }
  }

  /**
   * One group under `Promise.all`: every comment of `group` is classified,
   * `score(offset + k, group[k])` being the call on `group[k]`; the group
   * rejects when one call throws.
   */
  method AnalyzeGroup(group: seq<CommentData>, offset: nat, score: Scorer)
    returns (res: Result<seq<Analysis>, AnalyzeError>)
    ensures res.Success? <==> forall k :: 0 <= k < |group| ==> score(offset + k, group[k]).Success?
    ensures res.Success? ==>
      && |res.value| == |group|
      && forall k :: 0 <= k < |group| ==> score(offset + k, group[k]) == Success(res.value[k])
  {
    var results: seq<Analysis> := [];
    for j := 0 to |group|
      invariant |results| == j
      invariant forall k :: 0 <= k < j ==> score(offset + k, group[k]) == Success(results[k])
    {
      var a := score(offset + j, group[j]);
      if a.Failure? {
        return Failure(a.error);
      }
      results := results + [a.value];
    }
    res := Success(results);
  }

  /**
   * `analyzeBatch`: classifies `comments` group by group, `score(k, comments[k])`
   * being the call on `comments[k]` (`ScorerOf(reply, parse)` for the model's
   * answers `reply`). `groups` are the groups sent and
   * `pauses` the pauses taken. A call that throws rejects its group's
   * `Promise.all`, and with it the whole batch.
   */
  method AnalyzeBatch(comments: seq<CommentData>, score: Scorer)
    returns (res: Result<seq<Analysis>, AnalyzeError>, groups: seq<seq<CommentData>>, pauses: nat)
    ensures |groups| <= |Chunks(comments)| && groups == Chunks(comments)[..|groups|]
    ensures pauses == if |groups| == 0 then 0 else |groups| - 1
    ensures res.Success? <==> forall k :: 0 <= k < |comments| ==> score(k, comments[k]).Success?
    ensures res.Success? ==>
      && groups == Chunks(comments)
      && pauses == (if comments == [] then 0 else (|comments| + 4) / 5 - 1)
      && |res.value| == |comments|
      && forall k :: 0 <= k < |comments| ==> score(k, comments[k]) == Success(res.value[k])
    ensures res.Failure? ==>
      && |groups| > 0
      && (forall k :: 0 <= k < BatchSize * (|groups| - 1) && k < |comments| ==>
            score(k, comments[k]).Success?)
      && (exists k :: BatchSize * (|groups| - 1) <= k < Min(BatchSize * |groups|, |comments|)
                      && score(k, comments[k]).Failure?)
  {
    ChunksAreSlices(comments);
    var results: seq<Analysis> := [];
    groups, pauses := [], 0;
    var i := 0;
    while i < |comments|
      invariant i == Min(BatchSize * |groups|, |comments|)
      invariant |groups| <= |Chunks(comments)| && groups == Chunks(comments)[..|groups|]
      invariant i == |comments| <==> |groups| == |Chunks(comments)|
      invariant |results| == i
      invariant forall k :: 0 <= k < i ==> score(k, comments[k]) == Success(results[k])
      invariant pauses == if i < |comments| then |groups| else if groups == [] then 0 else |groups| - 1
      decreases |comments| - i
    {
      var end := Min(i + BatchSize, |comments|);
      var batch := comments[i..end];
      assert batch == Chunks(comments)[|groups|];
      assert forall k :: 0 <= k < |batch| ==> batch[k] == comments[i + k];
      var batchResults := AnalyzeGroup(batch, i, score);
      groups := groups + [batch];
      if batchResults.Failure? {
        res := Failure(batchResults.error);
        return;
      }
      results := results + batchResults.value;
      if i + BatchSize < |comments| {
        pauses := pauses + 1;
      }
      i := end;
    }
    res := Success(results);
  }
}

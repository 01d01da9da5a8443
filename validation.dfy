/**
 * The validation pass (`validate`, and `finetune_validate`, which runs the
 * same code): over the batches of the test loader it accumulates `total`,
 * the number of samples, and `correct`, the number whose arg-max prediction
 * equals the target, then reports `100 * correct / total`. The network's
 * predictions are inputs here.
 */
module Validation {

  import opened Wrappers

  /** `100. * correct / total` raises when no sample was seen. */
  datatype ValidationError = ZeroDivision

  /** One test sample: the predicted class (`torch.max(outputs, 1)`) and the label. */
  datatype Sample = Sample(predicted: int, target: int)

  type Batch = seq<Sample>

  predicate IsHit(s: Sample) { s.predicted == s.target }

  /** `predicted.eq(targets).sum().item()`: the correctly classified samples
      of one batch. */
  function Hits(batch: Batch): (n: nat)
    ensures n <= |batch|
    ensures n == |batch| <==> forall i :: 0 <= i < |batch| ==> IsHit(batch[i])
  {
    if batch == [] then 0
    else (if IsHit(batch[0]) then 1 else 0) + Hits(batch[1..])
  }

  /** `correct` after the given batches. */
  function Correct(batches: seq<Batch>): nat
  {
    if batches == [] then 0 else Correct(batches[..|batches| - 1]) + Hits(batches[|batches| - 1])
  }

  /** `total` after the given batches: `targets.size(0)` summed. */
  function Total(batches: seq<Batch>): nat
  {
    if batches == [] then 0 else Total(batches[..|batches| - 1]) + |batches[|batches| - 1]|
  }

  /** `correct <= total` after every batch, since a batch adds at most its
      size to `correct`; they are equal exactly when every sample seen so
      far was classified correctly. */
  lemma {:induction false} CorrectAtMostTotal(batches: seq<Batch>)
    ensures Correct(batches) <= Total(batches)
    ensures Correct(batches) == Total(batches) <==>
              forall b, i :: 0 <= b < |batches| && 0 <= i < |batches[b]| ==> IsHit(batches[b][i])
  {
    if batches != [] {
      var init, last := batches[..|batches| - 1], batches[|batches| - 1];
      CorrectAtMostTotal(init);
      assert forall b :: 0 <= b < |init| ==> init[b] == batches[b];
    }
  }

  /** `total` is zero exactly when every batch was empty. */
  lemma {:induction false} TotalZero(batches: seq<Batch>)
    ensures Total(batches) == 0 <==> forall b :: 0 <= b < |batches| ==> batches[b] == []
  {
    if batches != [] {
      var init := batches[..|batches| - 1];
      TotalZero(init);
      assert forall b :: 0 <= b < |init| ==> init[b] == batches[b];
    }
  }

  /** `accuracy = 100. * correct / total`, a percentage in `[0, 100]`
      when `correct <= total`; a division by zero when nothing was seen. */
  function Accuracy(correct: nat, total: nat): (r: Result<real, ValidationError>)
    ensures r.Failure? <==> total == 0
    ensures r.Success? ==> r.value * total as real == 100.0 * correct as real
    ensures r.Success? && correct <= total ==> 0.0 <= r.value <= 100.0
    ensures r.Success? ==> (r.value == 100.0 <==> correct == total)
  {
    if total == 0 then Failure(ZeroDivision)
    else Success(100.0 * correct as real / total as real)
  }

  /** The validation loop: the accuracy over all batches, a percentage; a
      failure exactly when the loader gave no sample; 100% exactly when every
      prediction was right. */
  method Validate(batches: seq<Batch>) returns (accuracy: Result<real, ValidationError>)
    ensures accuracy == Accuracy(Correct(batches), Total(batches))
    ensures accuracy.Failure? <==> forall b :: 0 <= b < |batches| ==> batches[b] == []
    ensures accuracy.Success? ==> 0.0 <= accuracy.value <= 100.0
    ensures accuracy == Success(100.0) <==>
              Total(batches) > 0 &&
              forall b, i :: 0 <= b < |batches| && 0 <= i < |batches[b]| ==> IsHit(batches[b][i])
  {
    var correct, total := 0, 0;
    var k := 0;
    while k < |batches|
      invariant 0 <= k <= |batches|
      invariant correct == Correct(batches[..k]) && total == Total(batches[..k])
      invariant correct <= total
    {
      assert batches[..k + 1][..k] == batches[..k];
      total := total + |batches[k]|;
      correct := correct + Hits(batches[k]);
      k := k + 1;
    }
    assert batches[..k] == batches;
    TotalZero(batches);
    CorrectAtMostTotal(batches);
    accuracy := Accuracy(correct, total);
  }
}

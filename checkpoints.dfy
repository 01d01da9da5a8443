/**
 * Best-checkpoint selection across the two phases of the script: the
 * initial training loop and the fine-tuning loop share one `best_acc`,
 * which starts at 0.0 and is never reset; a checkpoint is written, to the
 * phase's own file, exactly when an epoch's validation accuracy is strictly
 * above it. Between the phases the initial-phase checkpoint is loaded.
 * Accuracies are inputs (one per epoch) and a write is an event in a trace.
 */
module Checkpoints {

  /** `num_epochs` and `fine_tune_epochs`. */
  const NumEpochs := 70
  const FineTuneEpochs := 15

  import opened Wrappers

  /** The two checkpoint files: `resnet152_cifar10_weights_best.pt` and
      `resnet152_cifar10_finetuned_best.pt`. */
  datatype Checkpoint = InitialBest | FineTunedBest

  /** `torch.save(model.state_dict(), file)` after epoch `epoch` (0-based),
      whose accuracy was `accuracy`. */
  datatype SaveEvent = Save(file: Checkpoint, epoch: nat, accuracy: real)

  /** `torch.load` of the initial-phase checkpoint found no file. */
  datatype ScriptError = MissingCheckpoint

  /** What the script leaves behind: the saves in order, the final `best_acc`,
      and the epoch whose weights fine-tuning started from (`None` when the
      file was left over from an earlier run). */
  datatype Run = Run(saves: seq<SaveEvent>, bestAcc: real, resumedFrom: Option<nat>)

  function MaxReal(a: real, b: real): real { if b > a then b else a }

  /** `best_acc` after the epochs with accuracies `accs`, starting from `best0`. */
  function Best(best0: real, accs: seq<real>): real
  {
    if accs == [] then best0 else MaxReal(Best(best0, accs[..|accs| - 1]), accs[|accs| - 1])
  }

  /** The saves those epochs trigger: one per epoch whose accuracy is strictly
      above `best_acc` as it stood before that epoch. */
  function SaveTrace(file: Checkpoint, best0: real, accs: seq<real>): seq<SaveEvent>
  {
    if accs == [] then []
    else
      var init := accs[..|accs| - 1];
      SaveTrace(file, best0, init) +
      (if accs[|accs| - 1] > Best(best0, init) then [Save(file, |accs| - 1, accs[|accs| - 1])] else [])
  }

  function SavedEpochs(saves: seq<SaveEvent>): set<nat>
  {
    set k | 0 <= k < |saves| :: saves[k].epoch
  }

  /** `best_acc` never decreases, and ends at the maximum of its start value
      and every accuracy seen. */
  lemma {:induction false} BestIsMaximum(best0: real, accs: seq<real>)
    ensures best0 <= Best(best0, accs)
    ensures forall e :: 0 <= e < |accs| ==> accs[e] <= Best(best0, accs)
  {
    if accs != [] {
      var init := accs[..|accs| - 1];
      BestIsMaximum(best0, init);
      assert forall e :: 0 <= e < |init| ==> init[e] == accs[e];
    }
  }

  /** `best_acc` is monotone over the epochs. */
  lemma BestMonotone(best0: real, accs: seq<real>, i: nat, j: nat)
    requires i <= j <= |accs|
    ensures Best(best0, accs[..i]) <= Best(best0, accs[..j])
  {
    assert accs[..j] == accs[..i] + accs[i..j];
    PhasesCompose(best0, accs[..i], accs[i..j]);
    BestIsMaximum(Best(best0, accs[..i]), accs[i..j]);
  }

  /** Running a second loop from the first loop's `best_acc` gives the same
      `best_acc` as one loop over both phases' epochs: nothing is reset
      between the phases. */
  lemma {:induction false} PhasesCompose(best0: real, first: seq<real>, second: seq<real>)
    ensures Best(best0, first + second) == Best(Best(best0, first), second)
  {
    if second != [] {
      var both := first + second;
      var init := second[..|second| - 1];
      assert both[..|both| - 1] == first + init;
      PhasesCompose(best0, first, init);
    } else {
      assert first + second == first;
    }
  }

  /** Each save is an epoch of the run, written to the loop's file with that
      epoch's accuracy. */
  lemma {:induction false} SaveTraceEvents(file: Checkpoint, best0: real, accs: seq<real>)
    ensures forall k :: 0 <= k < |SaveTrace(file, best0, accs)| ==>
              var s := SaveTrace(file, best0, accs)[k];
              s.file == file && s.epoch < |accs| && s.accuracy == accs[s.epoch]
  {
    if accs != [] {
      var init := accs[..|accs| - 1];
      SaveTraceEvents(file, best0, init);
      var prev := SaveTrace(file, best0, init);
      var saves := SaveTrace(file, best0, accs);
      forall k | 0 <= k < |saves|
        ensures saves[k].file == file && saves[k].epoch < |accs| && saves[k].accuracy == accs[saves[k].epoch]
      {
        if k < |prev| { assert saves[k] == prev[k]; }
      }
    }
  }

  /** The saved epochs grow by the last epoch exactly when it improves. */
  lemma SavedEpochsStep(file: Checkpoint, best0: real, accs: seq<real>)
    requires accs != []
    ensures var init := accs[..|accs| - 1];
            SavedEpochs(SaveTrace(file, best0, accs)) ==
            SavedEpochs(SaveTrace(file, best0, init)) + (if accs[|accs| - 1] > Best(best0, init) then {|accs| - 1} else {})
  {
    var n := |accs| - 1;
    var init := accs[..n];
    var prev := SaveTrace(file, best0, init);
    var saves := SaveTrace(file, best0, accs);
    var extra: set<nat> := if accs[n] > Best(best0, init) then {n} else {};
    forall e | e in SavedEpochs(saves) ensures e in SavedEpochs(prev) + extra {
      var k :| 0 <= k < |saves| && saves[k].epoch == e;
      if k < |prev| { assert prev[k].epoch == e; }
    }
    forall e | e in SavedEpochs(prev) ensures e in SavedEpochs(saves) {
      var k :| 0 <= k < |prev| && prev[k].epoch == e;
      assert saves[k] == prev[k];
    }
    if accs[n] > Best(best0, init) { assert saves[|saves| - 1].epoch == n; }
  }

  /** An epoch is saved exactly when its accuracy beats the `best_acc`
      before it; a tie does not save. */
  lemma {:induction false} SaveTraceExact(file: Checkpoint, best0: real, accs: seq<real>, e: nat)
    requires e < |accs|
    ensures e in SavedEpochs(SaveTrace(file, best0, accs)) <==> accs[e] > Best(best0, accs[..e])
  {
    var n := |accs| - 1;
    var init := accs[..n];
    SavedEpochsStep(file, best0, accs);
    if e == n {
      var prev := SaveTrace(file, best0, init);
      SaveTraceEvents(file, best0, init);
      assert forall k :: 0 <= k < |prev| ==> prev[k].epoch != n;
      assert n !in SavedEpochs(prev);
      assert init == accs[..e];
    } else {
      SaveTraceExact(file, best0, init, e);
      assert init[e] == accs[e] && init[..e] == accs[..e];
    }
  }

  /** With no save `best_acc` never moved; otherwise the last save holds the
      final best accuracy, so the checkpoint file ends up holding the weights
      of the best epoch. */
  lemma {:induction false} LastSaveHoldsBest(file: Checkpoint, best0: real, accs: seq<real>)
    ensures SaveTrace(file, best0, accs) == [] ==> Best(best0, accs) == best0
    ensures SaveTrace(file, best0, accs) != [] ==>
              var saves := SaveTrace(file, best0, accs);
              saves[|saves| - 1].accuracy == Best(best0, accs) > best0
  {
    if accs != [] {
      var n := |accs| - 1;
      LastSaveHoldsBest(file, best0, accs[..n]);
      if accs[n] <= Best(best0, accs[..n]) {
        assert SaveTrace(file, best0, accs) == SaveTrace(file, best0, accs[..n]);
      }
    }
  }

  /** Successive saves are later epochs with strictly higher accuracy, and
      every save beats the starting `best_acc`. */
  lemma {:induction false} SavesImprove(file: Checkpoint, best0: real, accs: seq<real>)
    ensures var saves := SaveTrace(file, best0, accs);
            forall i, j :: 0 <= i < j < |saves| ==> saves[i].epoch < saves[j].epoch && saves[i].accuracy < saves[j].accuracy
    ensures var saves := SaveTrace(file, best0, accs);
            forall k :: 0 <= k < |saves| ==> saves[k].accuracy > best0
  {
    if accs != [] {
      var n := |accs| - 1;
      var init := accs[..n];
      SavesImprove(file, best0, init);
      SaveTraceEvents(file, best0, init);
      LastSaveHoldsBest(file, best0, init);
      BestIsMaximum(best0, init);
      var prev := SaveTrace(file, best0, init);
      var saves := SaveTrace(file, best0, accs);
      if accs[n] > Best(best0, init) {
        assert saves == prev + [Save(file, n, accs[n])];
        forall i, j | 0 <= i < j < |saves|
          ensures saves[i].epoch < saves[j].epoch && saves[i].accuracy < saves[j].accuracy
        {
          assert saves[i] == prev[i];
          if j < |prev| {
            assert saves[j] == prev[j];
          } else if i < |prev| - 1 {
            assert prev[i].accuracy < prev[|prev| - 1].accuracy;
          }
        }
      } else {
        assert saves == prev;
      }
    }
  }

  /** The best epoch found when fine-tuning is saved only if it beats every
      accuracy of the initial phase (and the initial 0.0). */
  lemma FineTuneSaveBeatsInitial(initialAccs: seq<real>, fineTuneAccs: seq<real>)
    ensures var saves := SaveTrace(FineTunedBest, Best(0.0, initialAccs), fineTuneAccs);
            forall k, e :: 0 <= k < |saves| && 0 <= e < |initialAccs| ==>
              saves[k].accuracy > initialAccs[e] && saves[k].accuracy > 0.0
  {
    BestIsMaximum(0.0, initialAccs);
    SavesImprove(FineTunedBest, Best(0.0, initialAccs), fineTuneAccs);
  }

  /** One of the two checkpoint loops, from `best_acc == best0`. */
  method CheckpointLoop(best0: real, accs: seq<real>, file: Checkpoint) returns (best: real, saves: seq<SaveEvent>)
    ensures best == Best(best0, accs) && saves == SaveTrace(file, best0, accs)
    ensures best0 <= best
    ensures forall e :: 0 <= e < |accs| ==> accs[e] <= best
  {
    best, saves := best0, [];
    var epoch := 0;
    while epoch < |accs|
      invariant 0 <= epoch <= |accs|
      invariant best == Best(best0, accs[..epoch]) && saves == SaveTrace(file, best0, accs[..epoch])
    {
      assert accs[..epoch + 1][..epoch] == accs[..epoch];
      if accs[epoch] > best {
        best := accs[epoch];
        saves := saves + [Save(file, epoch, accs[epoch])];
      }
      epoch := epoch + 1;
    }
    assert accs[..epoch] == accs;
    BestIsMaximum(best0, accs);
  }

  /** The script from `best_acc = 0.0` on: the initial training loop, the
      load of its checkpoint, and the fine-tuning loop. `staleCheckpoint`
      says whether an initial-phase file from an earlier run is on disk. */
  method TrainAndFineTune(initialAccs: seq<real>, fineTuneAccs: seq<real>, staleCheckpoint: bool)
    returns (r: Result<Run, ScriptError>)
    requires |initialAccs| == NumEpochs && |fineTuneAccs| == FineTuneEpochs
    ensures r.Failure? <==> !staleCheckpoint && SaveTrace(InitialBest, 0.0, initialAccs) == []
    ensures r.Success? ==>
              r.value.saves == SaveTrace(InitialBest, 0.0, initialAccs) +
                               SaveTrace(FineTunedBest, Best(0.0, initialAccs), fineTuneAccs)
    ensures r.Success? ==> r.value.bestAcc == Best(0.0, initialAccs + fineTuneAccs)
    ensures r.Success? ==>
              var initialSaves := SaveTrace(InitialBest, 0.0, initialAccs);
              r.value.resumedFrom == if initialSaves == [] then None else Some(initialSaves[|initialSaves| - 1].epoch)
  {
    var best, initialSaves := CheckpointLoop(0.0, initialAccs, InitialBest);
    if initialSaves == [] && !staleCheckpoint {
      return Failure(MissingCheckpoint);
    }
    var resumedFrom := if initialSaves == [] then None else Some(initialSaves[|initialSaves| - 1].epoch);
    var fineTuneSaves;
    best, fineTuneSaves := CheckpointLoop(best, fineTuneAccs, FineTunedBest);
    PhasesCompose(0.0, initialAccs, fineTuneAccs);
    r := Success(Run(initialSaves + fineTuneSaves, best, resumedFrom));
  }
}

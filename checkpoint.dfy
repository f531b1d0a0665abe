/**
 * The early-stop decision taken at the end of every checkpoint: training
 * stops once the number of epochs without improvement reaches the patience.
 */
module Checkpoint {

  /**
   * The entries of the training-state record that the checkpoint writer
   * reads; `counter` is the number of epochs since the best accuracy last
   * improved. The network weights in the record are not modelled.
   */
  datatype TrainingState = TrainingState(
    epoch: int,
    trainLoss: real,
    trainError: real,
    validLoss: real,
    validError: real,
    bestAccuracy: real,
    counter: int)

  /**
   * The value the checkpoint writer returns: whether to stop early. The log
   * appends and the weight file it writes along the way are not modelled.
   */
  function SaveCheckpoint(state: TrainingState, isBest: bool, savePath: string, patience: int): (earlyStop: bool)
  {
    state.counter >= patience
  }

  /**
   * The decision depends on the counter and the patience only: whether the
   * epoch was the best one, where the files go and the other entries of the
   * record do not change it.
   */
  lemma EarlyStopIgnoresOtherInputs(s1: TrainingState, s2: TrainingState, best1: bool, best2: bool,
                                    path1: string, path2: string, patience: int)
    requires s1.counter == s2.counter
    ensures SaveCheckpoint(s1, best1, path1, patience) == SaveCheckpoint(s2, best2, path2, patience)
  {
  }

  /** Once training would stop, a larger counter or a smaller patience still stops it. */
  lemma EarlyStopMonotone(s1: TrainingState, s2: TrainingState, isBest: bool, savePath: string,
                          patience1: int, patience2: int)
    requires s1.counter <= s2.counter && patience2 <= patience1
    ensures SaveCheckpoint(s1, isBest, savePath, patience1) ==> SaveCheckpoint(s2, isBest, savePath, patience2)
  {
  }
}

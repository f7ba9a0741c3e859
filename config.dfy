/** The experiment's parameters, as main.py reads them from config.yaml.

    Only the entries the trial engine and the session driver use are kept;
    colours, sizes and the background are rendering details. Counts are
    integers as YAML gives them: `range(n)` with `n <= 0` runs zero times and
    `[x] * n` with `n <= 0` is the empty list, so no count needs to be
    positive except the stimulus window (see `Valid`). */
module Config {

  datatype Config = Config(
    fixCrossTime: int,            // FIX_CROSS_TIME: fixation frames per trial
    stimTime: int,                // STIM_TIME: most stimulus frames per trial
    noTrainingTrials: int,        // NO_TRAINING_TRIALS
    noBlocks: int,                // NO_BLOCKS
    stimLetters: seq<string>,     // STIM_LETTERS, indexed by position 0..3
    reactionKeys: seq<string>,    // REACTION_KEYS: [left, right]
    leftCongProportion: int,      // LEFT_CONG_PROPORTION
    rightCongProportion: int,     // RIGHT_CONG_PROPORTION
    leftIncongProportion: int,    // LEFT_INCONG_PROPORTION
    rightIncongProportion: int,   // RIGHT_INCONG_PROPORTION
    frameRate: int                // FRAME_RATE the design expects
  )

  /** What the script takes for granted about its configuration: it indexes
      the letter list at 0..3 and the key list at 0 and 1 without checking,
      and with no stimulus frame at all the local `reaction` is never bound
      before it is read after the loop. */
  predicate Valid(c: Config) {
    |c.stimLetters| >= 4 && |c.reactionKeys| >= 2 && c.stimTime >= 1
  }

  /** How many times `for _ in range(n)` runs its body. */
  function Iterations(n: int): nat {
    if n < 0 then 0 else n
  }
}

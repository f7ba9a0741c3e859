/** The session driver (main.py `main`), the result ledger (the global
    `RESULTS` list and the `trial_no` counter) and its dump
    (`save_beh_results`).

    The ledger starts with a header row when the script is loaded. `main`
    asks for the participant's data, checks the frame rate, runs the training
    trials (letters drawn at random), then NO_BLOCKS passes over the
    stimulus sequence, reshuffled in place before each pass. Every completed
    trial appends one row. The abort key raises out of the trial, and so out
    of `main`; whatever way the process ends, the exit hook dumps the ledger
    as it then is. Random draws and the participant's answers are inputs
    (`Environment`). */
module Session {
  import opened Config
  import opened Classification
  import opened Stimuli
  import opened Trial

  datatype Phase = Training | Experiment

  /** A ledger row: the header, or `[PART_ID, trial_no, key, rt, corr, congr, phase]`. */
  datatype Row =
    | Header
    | Data(partId: string, trialNo: int, key: string, rt: real, corr: bool, congr: bool, phase: Phase)

  /** How `main` ends. */
  datatype Status =
    | Cancelled              // the participant dialog was closed: abort_with_error raises
    | WrongFrameRate         // measured frame rate differs from FRAME_RATE: main returns
    | UserAbort(trialNo: int)  // 'e' pressed during this trial: abort_with_error raises
    | Finished

  /** Everything the session reads from outside: the dialog, the measured
      frame rate, the random letters of the training trials, the random
      positions of every block's shuffle, and what the input source delivers
      during each trial, in the order trials are run. */
  datatype Environment = Environment(
    dialogOk: bool,
    identifier: string,
    sex: string,
    age: string,
    measuredFrameRate: int,
    trainingLetters: seq<string>,
    shuffleDraws: seq<seq<nat>>,
    trials: seq<seq<FrameInput>>
  )

  /** One random letter per training trial, each drawn from STIM_LETTERS,
      and one sequence of random positions per block. */
  predicate WellFormed(c: Config, env: Environment)
    requires Valid(c)
  {
    && |env.trainingLetters| == Iterations(c.noTrainingTrials)
    && (forall t :: 0 <= t < |env.trainingLetters| ==> env.trainingLetters[t] in c.stimLetters)
    && |env.shuffleDraws| == Iterations(c.noBlocks)
  }

  /** The order each block runs in when every block runs. */
  function BlockOrders(c: Config, env: Environment): (orders: seq<seq<string>>)
    requires Valid(c) && WellFormed(c, env)
    ensures |orders| == Iterations(c.noBlocks)
  {
    Reshuffled(BuildSequence(c), env.shuffleDraws, |env.shuffleDraws|)
  }

  /** Every block runs a rearrangement of the built sequence: each letter as
      often as its proportions ask, so every block has the same length. */
  lemma BlockOrdersKeepLetters(c: Config, env: Environment)
    requires Valid(c) && WellFormed(c, env)
    ensures forall b :: 0 <= b < |BlockOrders(c, env)| ==>
              multiset(BlockOrders(c, env)[b]) == multiset(BuildSequence(c))
              && |BlockOrders(c, env)[b]| == |BuildSequence(c)|
  {
    forall b | 0 <= b < |BlockOrders(c, env)|
      ensures multiset(BlockOrders(c, env)[b]) == multiset(BuildSequence(c))
      ensures |BlockOrders(c, env)[b]| == |BuildSequence(c)|
    {
      ReshuffledKeepLetters(BuildSequence(c), env.shuffleDraws, |env.shuffleDraws|, b);
    }
  }

  /** The input source's behaviour during the j-th trial of the session; a
      trial the input does not list has nothing pressed. */
  function TrialInput(trials: seq<seq<FrameInput>>, j: nat): seq<FrameInput> {
    if j < |trials| then trials[j] else []
  }

  /** `PART_ID`: the identifier, sex and age fields run together. */
  function PartId(identifier: string, sex: string, age: string): (id: string)
    ensures |id| == |identifier| + |sex| + |age|
    ensures id[..|identifier|] == identifier
    ensures id[|identifier|..|identifier| + |sex|] == sex
    ensures id[|identifier| + |sex|..] == age
  {
    identifier + sex + age
  }

  /** The fields cannot be told apart in PART_ID: two different participants
      can share it. */
  lemma PartIdIsAmbiguous()
    ensures PartId("aK", "M", "1") == PartId("a", "K", "M1")
  {
  }

  /** The participant label in force when the session ends: PART_ID is set
      only once the dialog and the frame-rate check have passed, and is the
      empty string before. */
  function SessionId(c: Config, env: Environment): string {
    if env.dialogOk && env.measuredFrameRate == c.frameRate then PartId(env.identifier, env.sex, env.age) else ""
  }

  /** The row `main` appends for a completed trial. */
  function RowOf(partId: string, trialNo: int, r: TrialResult, phase: Phase): Row
    requires r.TrialDone?
  {
    Data(partId, trialNo, r.key, r.rt, r.corr, r.congr, phase)
  }

  /** The j-th trial of the session (0-based) is a training trial when it
      comes among the first nTrain. */
  function PhaseOf(j: nat, nTrain: nat): Phase {
    if j < nTrain then Training else Experiment
  }

  /** The ledger's shape: the header first, then one row per trial with
      trial numbers 1, 2, 3, ... and the first nTrain of them training rows. */
  predicate LedgerShape(rows: seq<Row>, partId: string, nTrain: nat) {
    && |rows| >= 1 && rows[0] == Header
    && forall i :: 1 <= i < |rows| ==>
         && rows[i].Data? && rows[i].partId == partId && rows[i].trialNo == i
         && rows[i].phase == (if i <= nTrain then Training else Experiment)
  }

  /** In a ledger of that shape, trial numbers strictly increase and every
      training row precedes every experiment row. */
  lemma LedgerOrdered(rows: seq<Row>, partId: string, nTrain: nat)
    requires LedgerShape(rows, partId, nTrain)
    ensures forall i, j :: 1 <= i < j < |rows| ==> rows[i].trialNo < rows[j].trialNo
    ensures forall i, j :: 1 <= i < j < |rows| && rows[j].phase == Training ==> rows[i].phase == Training
    ensures forall i :: 1 <= i < |rows| ==> rows[i] != Header
  {
  }

  /** The last trial started was aborted by the participant. */
  predicate LastAborted(c: Config, trials: seq<seq<FrameInput>>, presented: seq<string>)
    requires Valid(c)
  {
    presented != [] && TrialOf(c, presented[|presented| - 1], TrialInput(trials, |presented| - 1)) == TrialAborted
  }

  /** Where a session stopped by the participant stopped: within the last
      block it started, or within training when it started no block. */
  predicate AbortWithin(training: seq<string>, blockOrders: seq<seq<string>>, presented: seq<string>) {
    if blockOrders == [] then |presented| <= |training|
    else |presented| > |training + Flatten(blockOrders[..|blockOrders| - 1])|
  }

  /** Row j+1 of the ledger records the j-th trial presented, as `run_trial`
      classified it. */
  predicate RowsRecordTrials(rows: seq<Row>, partId: string, c: Config, trials: seq<seq<FrameInput>>,
                             presented: seq<string>, nTrain: nat)
    requires Valid(c)
  {
    && |rows| >= 1 && rows[0] == Header
    && |rows| - 1 <= |presented|
    && forall i {:trigger rows[i]} :: 1 <= i < |rows| ==>
         && TrialOf(c, presented[i - 1], TrialInput(trials, i - 1)).TrialDone?
         && rows[i] == RowOf(partId, i, TrialOf(c, presented[i - 1], TrialInput(trials, i - 1)), PhaseOf(i - 1, nTrain))
  }

  lemma RecordedRowsHaveLedgerShape(rows: seq<Row>, partId: string, c: Config, trials: seq<seq<FrameInput>>,
                                    presented: seq<string>, nTrain: nat)
    requires Valid(c)
    requires RowsRecordTrials(rows, partId, c, trials, presented, nTrain)
    ensures LedgerShape(rows, partId, nTrain)
  {
    forall i | 1 <= i < |rows|
      ensures rows[i].Data? && rows[i].partId == partId && rows[i].trialNo == i
      ensures rows[i].phase == (if i <= nTrain then Training else Experiment)
    {
      var row := rows[i];
      assert row == RowOf(partId, i, TrialOf(c, presented[i - 1], TrialInput(trials, i - 1)), PhaseOf(i - 1, nTrain));
    }
  }

  /** The training feedback shown after the j-th trial is the one for the
      key and verdict in its row. */
  predicate FeedbackOfRows(keys: seq<string>, rows: seq<Row>, feedback: seq<string>)
  {
    && |feedback| < |rows|
    && forall i :: 1 <= i <= |feedback| ==>
         rows[i].Data? && feedback[i - 1] == Feedback(keys, rows[i].key, rows[i].corr)
  }

  /** Appending rows leaves the feedback of the earlier rows as it was. */
  lemma FeedbackKept(keys: seq<string>, rows: seq<Row>, longer: seq<Row>, feedback: seq<string>)
    requires FeedbackOfRows(keys, rows, feedback) && rows <= longer
    ensures FeedbackOfRows(keys, longer, feedback)
  {
    assert rows == longer[..|rows|];
    assert forall i :: 1 <= i <= |feedback| ==> longer[i] == rows[i];
  }

  /** Appending a row after the rows that have feedback extends the
      feedback by that row's text. */
  lemma FeedbackExtends(keys: seq<string>, rows: seq<Row>, feedback: seq<string>, row: Row)
    requires FeedbackOfRows(keys, rows, feedback) && |feedback| == |rows| - 1
    requires row.Data?
    ensures FeedbackOfRows(keys, rows + [row], feedback + [Feedback(keys, row.key, row.corr)])
  {
    assert forall i :: 1 <= i < |rows| ==> (rows + [row])[i] == rows[i];
  }

  /** Recording the classification of the next trial extends the ledger. */
  lemma {:induction false} RecordExtends(rows: seq<Row>, partId: string, c: Config, trials: seq<seq<FrameInput>>,
                                         presented: seq<string>, nTrain: nat, letter: string, r: TrialResult)
    requires Valid(c)
    requires RowsRecordTrials(rows, partId, c, trials, presented, nTrain) && |rows| == |presented| + 1
    requires r == TrialOf(c, letter, TrialInput(trials, |presented|)) && r.TrialDone?
    ensures RowsRecordTrials(rows + [RowOf(partId, |rows|, r, PhaseOf(|presented|, nTrain))], partId, c, trials,
                             presented + [letter], nTrain)
  {
    var longer := rows + [RowOf(partId, |rows|, r, PhaseOf(|presented|, nTrain))];
    forall i | 1 <= i < |longer|
      ensures TrialOf(c, (presented + [letter])[i - 1], TrialInput(trials, i - 1)).TrialDone?
      ensures longer[i] == RowOf(partId, i, TrialOf(c, (presented + [letter])[i - 1], TrialInput(trials, i - 1)), PhaseOf(i - 1, nTrain))
    {
      if i < |rows| {
        assert (presented + [letter])[i - 1] == presented[i - 1];
        var row := rows[i];
        assert longer[i] == row;
      } else {
        assert (presented + [letter])[i - 1] == letter;
      }
    }
  }

  /** Starting a trial that is not recorded keeps the ledger. */
  lemma {:induction false} StartExtends(rows: seq<Row>, partId: string, c: Config, trials: seq<seq<FrameInput>>,
                                        presented: seq<string>, nTrain: nat, letter: string)
    requires Valid(c)
    requires RowsRecordTrials(rows, partId, c, trials, presented, nTrain)
    ensures RowsRecordTrials(rows, partId, c, trials, presented + [letter], nTrain)
  {
    assert forall j :: 0 <= j < |presented| ==> (presented + [letter])[j] == presented[j];
  }

  /** The block numbers after which the break screen is shown when all
      blocks run: every block but the last. */
  function BreaksAfter(n: nat): (r: seq<int>)
    ensures |r| == (if n == 0 then 0 else n - 1)
    ensures forall i :: 0 <= i < |r| ==> r[i] == i
  {
    if n <= 1 then [] else BreaksAfter(n - 1) + [n - 2]
  }

  /** `str(n)` for a three-digit number. */
  function ThreeDigits(n: nat): (s: string)
    requires 100 <= n < 1000
    ensures |s| == 3
  {
    [Digit(n / 100), Digit(n / 10 % 10), Digit(n % 10)]
  }

  function Digit(d: nat): char
    requires d < 10
  {
    (48 + d) as char
  }

  /** `join('results', PART_ID + '_' + suffix + '_beh.csv')` */
  function ResultsPath(partId: string, suffix: nat): string
    requires 100 <= suffix < 1000
  {
    "results/" + partId + "_" + ThreeDigits(suffix) + "_beh.csv"
  }

  /** Two dumps of one session with different random suffixes go to
      different files. */
  lemma {:induction false} DistinctSuffixesDistinctPaths(partId: string, s1: nat, s2: nat)
    requires 100 <= s1 < 1000 && 100 <= s2 < 1000 && s1 != s2
    ensures ResultsPath(partId, s1) != ResultsPath(partId, s2)
  {
    var start := |"results/" + partId + "_"|;
    assert ResultsPath(partId, s1)[start..start + 3] == ThreeDigits(s1);
    assert ResultsPath(partId, s2)[start..start + 3] == ThreeDigits(s2);
    ThreeDigitsInjective(s1, s2);
  }

  /** `int(s)` for a string of three decimal digits. */
  function ThreeDigitValue(s: string): int
    requires |s| == 3
  {
    100 * (s[0] as int - 48) + 10 * (s[1] as int - 48) + (s[2] as int - 48)
  }

  /** Reading the suffix back gives the number drawn. */
  lemma ThreeDigitsRoundTrip(n: nat)
    requires 100 <= n < 1000
    ensures ThreeDigitValue(ThreeDigits(n)) == n
  {
    assert n / 10 == 10 * (n / 100) + n / 10 % 10;
    assert n == 10 * (n / 10) + n % 10;
  }

  /** Different three-digit numbers are written differently. */
  lemma ThreeDigitsInjective(s1: nat, s2: nat)
    requires 100 <= s1 < 1000 && 100 <= s2 < 1000 && s1 != s2
    ensures ThreeDigits(s1) != ThreeDigits(s2)
  {
    ThreeDigitsRoundTrip(s1);
    ThreeDigitsRoundTrip(s2);
  }

  /** One dump of the ledger: where it went and the rows written, in order. */
  datatype Snapshot = Snapshot(path: string, rows: seq<Row>)

  /** `random.shuffle(stim_seq_experiment)` at the start of block b: the
      list, in the order the previous block left it (`previous`), is
      rearranged with block b's random positions. `prior` are the orders of
      the blocks before; `orders` adds this block's. */
  method Reshuffle(c: Config, env: Environment, b: nat, previous: seq<string>, prior: seq<seq<string>>)
    returns (order: seq<string>, orders: seq<seq<string>>)
    requires Valid(c) && WellFormed(c, env)
    requires b < Iterations(c.noBlocks)
    requires prior == BlockOrders(c, env)[..b]
    requires previous == if b == 0 then BuildSequence(c) else prior[b - 1]
    ensures orders == prior + [order] == BlockOrders(c, env)[..b + 1]
    ensures multiset(order) == multiset(BuildSequence(c))
    ensures Flatten(orders) == Flatten(prior) + order
  {
    order := Shuffle(previous, env.shuffleDraws[b]);
    orders := prior + [order];
    ReshuffledStep(BuildSequence(c), env.shuffleDraws, |env.shuffleDraws|, b, prior);
    FlattenAppend(prior, order);
  }

  class Session {
    /** PART_ID */
    var partId: string
    /** RESULTS */
    var results: seq<Row>
    /** trial_no */
    var trialNo: int

    /** The module-level state when the script is loaded: RESULTS holds the
        header row and PART_ID is the empty string. */
    constructor ()
      ensures partId == "" && results == [Header] && trialNo == 0
    {
      partId := "";
      results := [Header];
      trialNo := 0;
    }

    /** `RESULTS.append([PART_ID, trial_no, key_pressed, rt, corr, congr, phase])` */
    method Record(r: TrialResult, phase: Phase)
      requires r.TrialDone?
      modifies this`results
      ensures results == old(results) + [RowOf(partId, trialNo, r, phase)]
    {
      results := results + [RowOf(partId, trialNo, r, phase)];
    }

    /** One trial of either loop: `run_trial`, then, unless the participant
        aborted it, its row appended to RESULTS and trial_no advanced. */
    method Step(c: Config, trials: seq<seq<FrameInput>>, presented: seq<string>, nTrain: nat, letter: string, phase: Phase)
      returns (r: TrialResult)
      requires Valid(c)
      requires trialNo == |results| == |presented| + 1
      requires RowsRecordTrials(results, partId, c, trials, presented, nTrain)
      requires phase == PhaseOf(|presented|, nTrain)
      modifies this`results, this`trialNo
      ensures r == TrialOf(c, letter, TrialInput(trials, |presented|))
      ensures RowsRecordTrials(results, partId, c, trials, presented + [letter], nTrain)
      ensures r == TrialAborted ==> results == old(results) && trialNo == old(trialNo)
      ensures r.TrialDone? ==> results == old(results) + [RowOf(partId, |presented| + 1, r, phase)] && trialNo == |results|
    {
      var fixationDraws, stimulusDraws;
      r, fixationDraws, stimulusDraws := RunTrial(c, letter, TrialInput(trials, |presented|));
      if r == TrialAborted {
        StartExtends(results, partId, c, trials, presented, nTrain, letter);
        return;
      }
      RecordExtends(results, partId, c, trials, presented, nTrain, letter, r);
      Record(r, phase);
      trialNo := trialNo + 1;
    }

    /** `save_beh_results`: writes every current row, in order, to a file
        named after PART_ID and a random three-digit suffix. It changes no
        state, so two dumps with no trial in between write the same rows. */
    method Save(suffix: nat) returns (snapshot: Snapshot)
      requires 100 <= suffix < 1000
      ensures snapshot == Snapshot(ResultsPath(partId, suffix), results)
    {
      snapshot := Snapshot(ResultsPath(partId, suffix), results);
    }

    /** What is written as the process ends: the dump at the end of `main`
        when it finished, then the exit hook's. Both write the current rows. */
    method Dumps(finished: bool, suffixes: seq<nat>) returns (snapshots: seq<Snapshot>)
      requires |suffixes| == 2 && forall k :: 0 <= k < 2 ==> 100 <= suffixes[k] < 1000
      ensures |snapshots| == (if finished then 2 else 1)
      ensures forall k :: 0 <= k < |snapshots| ==> snapshots[k].rows == results
      ensures finished ==> snapshots[0].path == ResultsPath(partId, suffixes[0])
      ensures snapshots[|snapshots| - 1].path == ResultsPath(partId, suffixes[1])
    {
      snapshots := [];
      if finished {
        // save_beh_results() at the end of main
        var s := Save(suffixes[0]);
        snapshots := snapshots + [s];
      }
      // the atexit hook
      var s := Save(suffixes[1]);
      snapshots := snapshots + [s];
    }

    /** The training loop of `main`: one trial per random letter, each
        recorded as a training row and followed by its feedback text. Stops
        at the trial the participant aborts. */
    method Train(c: Config, env: Environment) returns (aborted: bool, presented: seq<string>, feedback: seq<string>)
      requires Valid(c) && |env.trainingLetters| == Iterations(c.noTrainingTrials)
      requires results == [Header] && trialNo == 1
      modifies this`results, this`trialNo
      ensures presented <= env.trainingLetters
      ensures !aborted ==> presented == env.trainingLetters && |results| == |presented| + 1
      ensures aborted ==>
                && presented != [] && |results| == |presented|
                && LastAborted(c, env.trials, presented)
      ensures trialNo == |results|
      ensures RowsRecordTrials(results, partId, c, env.trials, presented, Iterations(c.noTrainingTrials))
      ensures FeedbackOfRows(c.reactionKeys, results, feedback) && |feedback| == |results| - 1
    {
      var nTrain := Iterations(c.noTrainingTrials);
      presented, feedback := [], [];
      for t := 0 to nTrain
        invariant presented == env.trainingLetters[..t]
        invariant trialNo == |results| == t + 1
        invariant RowsRecordTrials(results, partId, c, env.trials, presented, nTrain)
        invariant |feedback| == t && FeedbackOfRows(c.reactionKeys, results, feedback)
      {
        var letter := env.trainingLetters[t];
        assert env.trainingLetters[..t + 1] == presented + [letter];
        ghost var rowsBefore := results;
        var r := Step(c, env.trials, presented, nTrain, letter, Training);
        presented := presented + [letter];
        if r == TrialAborted {
          return true, presented, feedback;
        }
        FeedbackExtends(c.reactionKeys, rowsBefore, feedback, RowOf(partId, t + 1, r, Training));
        feedback := feedback + [Feedback(c.reactionKeys, r.key, r.corr)];
      }
      assert presented == env.trainingLetters;
      aborted := false;
    }

    /** One pass of the experiment loop over the freshly shuffled list: one
        experiment trial per letter, in order, after the trials in `done`.
        Stops at the trial the participant aborts. */
    method RunBlock(c: Config, env: Environment, done: seq<string>, order: seq<string>)
      returns (aborted: bool, presented: seq<string>)
      requires Valid(c)
      requires |done| >= Iterations(c.noTrainingTrials)
      requires trialNo == |results| == |done| + 1
      requires RowsRecordTrials(results, partId, c, env.trials, done, Iterations(c.noTrainingTrials))
      modifies this`results, this`trialNo
      ensures done <= presented <= done + order
      ensures !aborted ==> presented == done + order && |results| == |presented| + 1
      ensures aborted ==>
                && |presented| > |done| && |results| == |presented|
                && LastAborted(c, env.trials, presented)
      ensures trialNo == |results|
      ensures old(results) <= results
      ensures RowsRecordTrials(results, partId, c, env.trials, presented, Iterations(c.noTrainingTrials))
    {
      var nTrain := Iterations(c.noTrainingTrials);
      presented := done;
      for i := 0 to |order|
        invariant presented == done + order[..i]
        invariant trialNo == |results| == |presented| + 1
        invariant old(results) <= results
        invariant RowsRecordTrials(results, partId, c, env.trials, presented, nTrain)
      {
        var letter := order[i];
        assert order[..i + 1] == order[..i] + [letter];
        var r := Step(c, env.trials, presented, nTrain, letter, Experiment);
        presented := presented + [letter];
        if r == TrialAborted {
          return true, presented;
        }
      }
      assert order[..|order|] == order;
      aborted := false;
    }

    /** Block b of the experiment loop: the one list, left in the order the
        previous block ran it in, is shuffled in place and then run; the
        break screen follows unless this is the last block. `prior` are the
        orders of the blocks before, `done` the trials run before. */
    method Block(c: Config, env: Environment, done: seq<string>, b: nat, previous: seq<string>,
                 prior: seq<seq<string>>)
      returns (aborted: bool, presented: seq<string>, order: seq<string>, orders: seq<seq<string>>,
               breakShown: bool)
      requires Valid(c) && WellFormed(c, env)
      requires b < Iterations(c.noBlocks)
      requires prior == BlockOrders(c, env)[..b]
      requires previous == if b == 0 then BuildSequence(c) else prior[b - 1]
      requires done == env.trainingLetters + Flatten(prior)
      requires trialNo == |results| == |done| + 1
      requires RowsRecordTrials(results, partId, c, env.trials, done, Iterations(c.noTrainingTrials))
      modifies this`results, this`trialNo
      ensures orders == prior + [order] == BlockOrders(c, env)[..b + 1]
      ensures done <= presented <= env.trainingLetters + Flatten(orders)
      ensures !aborted ==> presented == env.trainingLetters + Flatten(orders) && |results| == |presented| + 1
      ensures aborted ==>
                && |presented| > |done| && |results| == |presented|
                && LastAborted(c, env.trials, presented)
      ensures breakShown <==> !aborted && b < Iterations(c.noBlocks) - 1
      ensures trialNo == |results|
      ensures old(results) <= results
      ensures RowsRecordTrials(results, partId, c, env.trials, presented, Iterations(c.noTrainingTrials))
    {
      order, orders := Reshuffle(c, env, b, previous, prior);
      assert done + order == env.trainingLetters + Flatten(orders);
      aborted, presented := RunBlock(c, env, done, order);
      // show_image(break.jpg) after every block but the last
      breakShown := !aborted && b < c.noBlocks - 1;
    }

    /** The experiment loop of `main`: NO_BLOCKS passes, each reshuffling
        the one stimulus list in place and running it, with the break screen
        after every block but the last. Stops at the trial the participant
        aborts. */
    method RunBlocks(c: Config, env: Environment)
      returns (aborted: bool, presented: seq<string>, blockOrders: seq<seq<string>>, breaks: seq<int>)
      requires Valid(c) && WellFormed(c, env)
      requires trialNo == |results| == |env.trainingLetters| + 1
      requires RowsRecordTrials(results, partId, c, env.trials, env.trainingLetters, Iterations(c.noTrainingTrials))
      modifies this`results, this`trialNo
      ensures old(results) <= results && trialNo == |results|
      ensures RowsRecordTrials(results, partId, c, env.trials, presented, Iterations(c.noTrainingTrials))
      ensures blockOrders <= BlockOrders(c, env)
      ensures presented <= env.trainingLetters + Flatten(blockOrders)
      ensures !aborted ==>
                && presented == env.trainingLetters + Flatten(blockOrders)
                && |blockOrders| == Iterations(c.noBlocks) && |results| == |presented| + 1
      ensures aborted ==>
                && |presented| > |env.trainingLetters| && |results| == |presented|
                && LastAborted(c, env.trials, presented)
      ensures aborted ==> blockOrders != [] && AbortWithin(env.trainingLetters, blockOrders, presented)
      ensures breaks == BreaksAfter(|blockOrders|)
    {
      var nBlocks := Iterations(c.noBlocks);
      var order := BuildSequence(c);
      presented, blockOrders, breaks := env.trainingLetters, [], [];
      for b := 0 to nBlocks
        invariant blockOrders == BlockOrders(c, env)[..b]
        invariant order == if b == 0 then BuildSequence(c) else blockOrders[b - 1]
        invariant presented == env.trainingLetters + Flatten(blockOrders)
        invariant old(results) <= results
        invariant trialNo == |results| == |presented| + 1
        invariant RowsRecordTrials(results, partId, c, env.trials, presented, Iterations(c.noTrainingTrials))
        invariant breaks == BreaksAfter(if b < nBlocks then b + 1 else nBlocks)
      {
        var breakShown;
        ghost var priorOrders := blockOrders;
        aborted, presented, order, blockOrders, breakShown := Block(c, env, presented, b, order, blockOrders);
        if aborted {
          assert blockOrders[..|blockOrders| - 1] == priorOrders;
          return;
        }
        if breakShown {
          breaks := breaks + [b];
        }
      }
      aborted := false;
    }

    /** The part of `main` after PART_ID is set: the training loop, then the
        experiment loop. Reports whether the participant aborted a trial. */
    method Conduct(c: Config, env: Environment)
      returns (aborted: bool, presented: seq<string>, blockOrders: seq<seq<string>>,
               feedback: seq<string>, breaks: seq<int>)
      requires Valid(c) && WellFormed(c, env)
      requires results == [Header] && trialNo == 1
      modifies this`results, this`trialNo
      ensures RowsRecordTrials(results, partId, c, env.trials, presented, Iterations(c.noTrainingTrials))
      ensures LedgerShape(results, partId, Iterations(c.noTrainingTrials))
      ensures trialNo == |results|
      ensures presented <= env.trainingLetters + Flatten(blockOrders)
      ensures blockOrders <= BlockOrders(c, env)
      ensures aborted ==>
                && presented != [] && |results| == |presented|
                && LastAborted(c, env.trials, presented)
                && AbortWithin(env.trainingLetters, blockOrders, presented)
      ensures !aborted ==>
                && presented == env.trainingLetters + Flatten(blockOrders)
                && |blockOrders| == Iterations(c.noBlocks)
                && |results| == 1 + |presented|
                && |results| == 1 + Iterations(c.noTrainingTrials) + Iterations(c.noBlocks) * |BuildSequence(c)|
      ensures FeedbackOfRows(c.reactionKeys, results, feedback)
      ensures |feedback| == (if |results| - 1 < Iterations(c.noTrainingTrials) then |results| - 1
                             else Iterations(c.noTrainingTrials))
      ensures breaks == BreaksAfter(|blockOrders|)
    {
      var nTrain := Iterations(c.noTrainingTrials);
      blockOrders, breaks := [], [];
      aborted, presented, feedback := Train(c, env);
      if !aborted {
        ghost var rowsBefore := results;
        aborted, presented, blockOrders, breaks := RunBlocks(c, env);
        FeedbackKept(c.reactionKeys, rowsBefore, results, feedback);
        if !aborted {
          BlockOrdersKeepLetters(c, env);
          FlattenBlocks(blockOrders, |BuildSequence(c)|);
        }
      }
      RecordedRowsHaveLedgerShape(results, partId, c, env.trials, presented, nTrain);
    }

    /** `main()`. Returns how it ended, the letters of the trials started,
        the order each started block ran in, the training feedback texts and
        the blocks after which a break screen was shown. */
    method Run(c: Config, env: Environment)
      returns (status: Status, presented: seq<string>, blockOrders: seq<seq<string>>,
               feedback: seq<string>, breaks: seq<int>)
      requires Valid(c) && WellFormed(c, env)
      requires partId == "" && results == [Header]
      modifies this
      ensures status == Cancelled <==> !env.dialogOk
      ensures status == WrongFrameRate <==> env.dialogOk && env.measuredFrameRate != c.frameRate
      ensures partId == SessionId(c, env)
      ensures status.Cancelled? || status.WrongFrameRate? ==> results == [Header] && presented == [] && blockOrders == []
      // the ledger
      ensures RowsRecordTrials(results, partId, c, env.trials, presented, Iterations(c.noTrainingTrials))
      ensures LedgerShape(results, partId, Iterations(c.noTrainingTrials))
      ensures trialNo == |results| || status.Cancelled? || status.WrongFrameRate?
      // the trials run
      ensures presented <= env.trainingLetters + Flatten(blockOrders)
      ensures blockOrders <= BlockOrders(c, env)
      ensures status.UserAbort? ==>
                && presented != [] && |results| == |presented| && status.trialNo == |presented|
                && LastAborted(c, env.trials, presented)
                && AbortWithin(env.trainingLetters, blockOrders, presented)
      ensures status == Finished ==>
                && presented == env.trainingLetters + Flatten(blockOrders)
                && |blockOrders| == Iterations(c.noBlocks)
                && |results| == 1 + |presented|
                && |results| == 1 + Iterations(c.noTrainingTrials) + Iterations(c.noBlocks) * |BuildSequence(c)|
      // what the participant was shown between trials
      ensures FeedbackOfRows(c.reactionKeys, results, feedback)
      ensures |feedback| == (if |results| - 1 < Iterations(c.noTrainingTrials) then |results| - 1
                             else Iterations(c.noTrainingTrials))
      ensures breaks == BreaksAfter(|blockOrders|)
    {
      presented, blockOrders, feedback, breaks := [], [], [], [];
      if !env.dialogOk {
        // abort_with_error('Info dialog terminated.')
        status := Cancelled;
        return;
      }
      if env.measuredFrameRate != c.frameRate {
        // the critical-error dialog, then `return None`
        status := WrongFrameRate;
        return;
      }
      partId := PartId(env.identifier, env.sex, env.age);
      trialNo := 0;
      trialNo := trialNo + 1;
      var aborted;
      aborted, presented, blockOrders, feedback, breaks := Conduct(c, env);
      status := if aborted then UserAbort(trialNo) else Finished;
    }
  }

  /** The script run as a program: load the module (the ledger with its
      header), run `main`, and on the way out run the exit hook. A finished
      session also dumps the ledger at the end of `main`, so it is written
      twice, with the same rows. `suffixes` are the two random file-name
      suffixes; `rows` is the ledger as the process leaves it. */
  method Execute(c: Config, env: Environment, suffixes: seq<nat>)
    returns (status: Status, presented: seq<string>, blockOrders: seq<seq<string>>,
             rows: seq<Row>, snapshots: seq<Snapshot>)
    requires Valid(c) && WellFormed(c, env)
    requires |suffixes| == 2 && forall k :: 0 <= k < 2 ==> 100 <= suffixes[k] < 1000
    // how the run ends
    ensures status == Cancelled <==> !env.dialogOk
    ensures status == WrongFrameRate <==> env.dialogOk && env.measuredFrameRate != c.frameRate
    // the trials run
    ensures blockOrders <= BlockOrders(c, env)
    ensures presented <= env.trainingLetters + Flatten(blockOrders)
    ensures status.Cancelled? || status.WrongFrameRate? ==> presented == [] && blockOrders == []
    ensures status.UserAbort? ==>
              && LastAborted(c, env.trials, presented)
              && AbortWithin(env.trainingLetters, blockOrders, presented)
    ensures status == Finished ==> presented == env.trainingLetters + Flatten(BlockOrders(c, env))
    // the rows dumped: the classified records of the trials completed
    ensures RowsRecordTrials(rows, SessionId(c, env), c, env.trials, presented, Iterations(c.noTrainingTrials))
    ensures LedgerShape(rows, SessionId(c, env), Iterations(c.noTrainingTrials))
    ensures status.Cancelled? || status.WrongFrameRate? ==> rows == [Header]
    ensures status.UserAbort? ==> |rows| == |presented| == status.trialNo
    ensures status == Finished ==>
              |rows| == 1 + Iterations(c.noTrainingTrials) + Iterations(c.noBlocks) * |BuildSequence(c)|
    // the dumps
    ensures |snapshots| == (if status == Finished then 2 else 1)
    ensures forall k :: 0 <= k < |snapshots| ==> snapshots[k].rows == rows
    ensures status == Finished ==> snapshots[0].path == ResultsPath(SessionId(c, env), suffixes[0])
    ensures snapshots[|snapshots| - 1].path == ResultsPath(SessionId(c, env), suffixes[1])
  {
    var session := new Session();
    var feedback, breaks;
    status, presented, blockOrders, feedback, breaks := session.Run(c, env);
    if status == Finished {
      assert blockOrders == BlockOrders(c, env);
    }
    rows := session.results;
    snapshots := session.Dumps(status == Finished, suffixes);
  }
}

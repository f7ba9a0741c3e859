# Flanker reaction-time experiment: a verified model

`main.py` is a PsychoPy reaction-time experiment in the flanker/Stroop style.
It asks for the participant's identifier, sex and age, then checks the
display's frame rate. It then runs a number of training trials with feedback,
followed by NO_BLOCKS blocks of experiment trials. Every completed trial adds
a row to the global `RESULTS` ledger, which is written to a CSV file at the end
of `main` and again by an exit hook.

A trial works like this:
- It draws a fixation cross for FIX_CROSS_TIME frames.
- It shows one stimulus letter for at most STIM_TIME frames.
- On every stimulus frame it first checks the abort key `e`, then polls the
  two reaction keys.
- It ends on the first frame with a reaction key, or times out.

It then classifies the trial by the letter's position in STIM_LETTERS:
- letters 0 and 3 belong to the left key, 1 and 2 to the right key;
- letters 0 and 1 are congruent.

The experiment list holds each of the four role letters repeated by its
configured proportion. It is shuffled in place at the start of every block.

The Dafny project models that logic in six modules:

- `Config` (config.dfy): the configuration entries the logic reads, and
  `range(n)` as `Iterations(n)`.
- `Classification` (classification.dfy): `corr`, `congr` and the training
  feedback text. They are checked against the roles `run_trial` names its
  letters by (`left_congr`, `right_congr`, `left_incongr`, `right_incongr`),
  each with a side and a congruency.
- `Trial` (trial.dfy): `run_trial` and its abort path. It has:
  - a specification function of the stimulus loop;
  - the loop itself as a method;
  - the classification of its outcome.
- `Stimuli` (stimuli.dfy): the proportion-weighted list, `random.shuffle` as
  its exchange sequence, and the chain of block orders.
- `Messages` (messages.dfy): the `read_text_from_file` line filter, as a loop
  proved against a specification function.
- `Session` (session.dfy): the rest of the session. It has:
  - the class `Session`, holding PART_ID, RESULTS and trial_no;
  - the training and block loops;
  - `main` (`Run`);
  - `save_beh_results` (`Save`);
  - the program run with its exit hook (`Execute`).

Everything the script gets from outside is an input of the model:
- the dialog's outcome and fields;
- the measured frame rate;
- the random training letters;
- the random positions of every shuffle;
- the random file-name suffixes;
- what the keyboard delivers on every stimulus frame of every trial.

Two behaviours of `main.py` are worth knowing when reading the model:
- **Block orders:** the one list is shuffled in place at the start of every
  block (main.py:201-202), so each block starts from the order the previous
  block left. `random.shuffle` makes every arrangement equally likely
  whatever order the list starts in. The block orders therefore have the
  same distribution as if the list were rebuilt and shuffled afresh for
  every block. The chaining shows in the model only because the shuffle's
  random positions are inputs (`Stimuli.Reshuffled`).
- **Frame-rate mismatch:** `main` shows an error dialog and returns
  normally (main.py:137-142), before PART_ID is set. The exit hook then
  writes a results file holding only the header row, under an empty
  PART_ID (`Session.Execute`).

## Model

| member | source | states |
|---|---|---|
| Classification.CongruentIffCongruentRole | main.py:271-274 | `congr` holds exactly when the stimulus is STIM_LETTERS[0] or [1], i.e. the letter of one of the two congruent roles |
| Classification.IsCorrect | main.py:259-269 | `corr`: the key is REACTION_KEYS[0] and the stimulus is letter 0 or 3, or the key is REACTION_KEYS[1] and the stimulus is letter 1 or 2 |
| Classification.IsCongruent | main.py:271-274 | `congr`: the stimulus is letter 0 or letter 1 |
| Classification.CorrectIffKeyOfRoleSide | main.py:250-269 | `corr` holds exactly when the stimulus is the letter of some role and the key pressed is the key of that role's side (left: letters 0 and 3 with REACTION_KEYS[0]; right: letters 1 and 2 with REACTION_KEYS[1]) |
| Classification.CorrectKeyOfRole | main.py:250-269 | with four distinct letters, the stimulus of a role is correct for exactly one key, the key of its side |
| Classification.CongruencyOfRole | main.py:254-257 | with four distinct letters, a role's letter is congruent exactly when the role is a congruent one |
| Classification.ForeignKeyIsIncorrect | main.py:260-269 | a key that is neither reaction key is never correct, whatever the stimulus |
| Classification.Feedback | main.py:165-168 | the feedback is "Za wolno!" exactly when the key is not a reaction key, "Poprawnie" exactly when it is one and the trial is correct, "Niepoprawnie" exactly when it is one and the trial is incorrect |
| Trial.Matching | main.py:235-236 | the reaction-key poll: the pending events whose key is listed, in the order they occurred; never more than were pending |
| Trial.MatchingMembers | main.py:235-236 | a key poll returns exactly the pending events whose key is a listed reaction key |
| Trial.MatchingHead | main.py:235-236 | the first event a poll returns is the earliest pending event for a listed key |
| Trial.Verdict | main.py:234-238 | a frame that stops the loop either aborts or reports a response whose key is a reaction key |
| Trial.StimulusFrom | main.py:233-240 | the stimulus loop from frame k on: time out at STIM_TIME, stop with the verdict of a frame that is not quiet, otherwise draw and go on |
| Trial.Stimulus | main.py:233-240 | the stimulus loop of a trial, started at frame 0 |
| Trial.StimulusFromStops | main.py:233-240 | the stimulus is drawn once per frame with neither abort nor reaction key, at most STIM_TIME times; the loop times out exactly when all STIM_TIME frames were like that, and otherwise stops on the first frame that is not |
| Trial.StopsAtFirstBusyFrame | main.py:233-240 | when frames 0..k-1 are quiet and frame k is not, the loop stops on frame k after exactly k stimulus draws |
| Trial.AllQuietTimesOut | main.py:233-247 | when no frame has the abort key or a reaction key, the trial times out after STIM_TIME draws |
| Trial.AbortBeatsResponse | main.py:233-238 | the abort check runs before the poll: a pending `e` on the first busy frame aborts even when a reaction key is pending too |
| Trial.ResponseIsFirstEvent | main.py:243-244 | a response reports the key and time of the first pending reaction-key event of the frame the loop stopped on, and that frame had no pending `e` |
| Trial.PresentStimulus | main.py:233-247 | the frame loop with its early exits computes the specified outcome and draw count; it draws at most STIM_TIME times, all on quiet frames, and times out exactly when it drew STIM_TIME times |
| Trial.TrialOf | main.py:242-276 | the trial's outcome: the abort, or the key and time reported (`'no_key'` and -1.0 on timeout) with `corr` and `congr` of the stimulus and that key |
| Trial.RunTrial | main.py:223-276 | `run_trial` draws FIX_CROSS_TIME fixation frames, runs the stimulus loop and returns the classified record, or the abort |
| Trial.TimeoutRecord | main.py:243-247 | a trial with neither `e` nor a reaction key on any of its STIM_TIME frames records 'no_key' and -1.0; unless 'no_key' is a reaction key, it is incorrect and its feedback is "Za wolno!" |
| Trial.ResponseFeedback | main.py:165-168 | a trial ended by a reaction key gets "Poprawnie" or "Niepoprawnie" according to `corr`, never "Za wolno!" |
| Trial.CongruencyIgnoresResponse | main.py:271-274 | two completed trials with the same stimulus agree on `congr`, whatever was pressed and when |
| Trial.AbortedIff | main.py:233-238 | a trial is aborted exactly when some stimulus frame has `e` pending and every frame before it was quiet |
| Trial.WorkedTrials | main.py:223-276 | with letters Q, P, R, S and keys f, j: a silent trial records 'no_key', -1.0, incorrect; Q answered with f is correct and congruent; S answered with j is incorrect and incongruent |
| Stimuli.Repeat | main.py:199 | `[x] * n` has n elements (none when n is not positive) |
| Stimuli.RepeatCount | main.py:199 | `[x] * n` holds x exactly n times and nothing else |
| Stimuli.BuildSequence | main.py:187-199 | the experiment list's length is the sum of the four proportions |
| Stimuli.SequenceComposition | main.py:187-199 | each letter occurs in the list as often as the sum of the proportions of the roles that use it |
| Stimuli.RoleLetterCount | main.py:187-199 | with four distinct letters, each role's letter occurs exactly its proportion times |
| Stimuli.Swap | main.py:202 | one exchange of the shuffle: positions i and j trade letters; the length is kept |
| Stimuli.ExchangesFrom | main.py:202 | the shuffle's exchanges for indices i down to 1, index i trading with the position drawn for it; the length is kept |
| Stimuli.Partner | main.py:202 | the position exchanged with index i is at most i, and is the drawn position when that is in range |
| Stimuli.Shuffle | main.py:202 | shuffling keeps the list's length |
| Stimuli.ShuffleKeepsLetters | main.py:202 | shuffling rearranges the list: every letter occurs as often as before |
| Stimuli.Reshuffled | main.py:201-202 | there is one order per block run |
| Stimuli.ReshuffledPrefix | main.py:201-202 | running more blocks does not change the orders of the earlier ones |
| Stimuli.ReshuffledChain | main.py:201-202 | block b's order is block b-1's order (the built list for block 0) reshuffled |
| Stimuli.ReshuffledKeepLetters | main.py:199-203 | every block runs a rearrangement of the built list, with the same length and the same letter counts |
| Messages.Contribution | main.py:64-69 | what one line adds to `msg`: nothing for a comment, the insert text (if non-empty) for a placeholder line, the line itself otherwise |
| Messages.Kept | main.py:61-69 | `msg` after the whole file: the lines' contributions in file order |
| Messages.Join | main.py:70 | `''.join(msg)`: the pieces concatenated with nothing between them |
| Messages.KeptAppend | main.py:63-69 | the filter works line by line: filtering two parts of a file and concatenating gives the filtering of the whole |
| Messages.TextOfParts | main.py:61-70 | the message of a file is the message of its first part followed by that of the rest, so line order is kept |
| Messages.KeptSound | main.py:63-69 | every kept piece is a line that is neither comment nor placeholder, or the non-empty insert text when the file has a placeholder line |
| Messages.KeptComplete | main.py:63-69 | every line that is neither comment nor placeholder is kept, and a non-empty insert text is kept when the file has a placeholder line |
| Messages.PlainFileUnchanged | main.py:63-70 | a file with neither comments nor placeholders is kept line for line |
| Messages.ReadText | main.py:61-70 | the reading loop returns the concatenation of the kept pieces, in file order |
| Session.BlockOrders | main.py:201-202 | a full session has NO_BLOCKS block orders |
| Session.BlockOrdersKeepLetters | main.py:199-203 | every block of the session runs the built list's letters, each as often as built, with the same length |
| Session.PartId | main.py:144 | PART_ID is the identifier, sex and age fields, in that order, with nothing between them |
| Session.PartIdIsAmbiguous | main.py:144 | two different field triples can give the same PART_ID |
| Session.SessionId | main.py:144 | PART_ID when the session ends: the concatenated fields once the dialog and frame-rate check have passed, the empty string before |
| Session.RowOf | main.py:162 | the row appended for a completed trial: PART_ID, trial_no, key, rt, corr, congr and the phase |
| Session.LedgerOrdered | main.py:154-207 | in a recorded ledger trial numbers strictly increase and every training row comes before every experiment row |
| Session.RecordedRowsHaveLedgerShape | main.py:111-207 | a ledger whose rows record the trials run has the header first, trial numbers 1, 2, 3, ... and the first NO_TRAINING_TRIALS rows marked training |
| Session.BreaksAfter | main.py:208-210 | the break screen follows blocks 0 .. n-2, every block but the last |
| Session.ResultsPath | main.py:27 | the results file `results/<PART_ID>_<suffix>_beh.csv` |
| Session.ThreeDigits | main.py:27 | the random suffix is written with three characters |
| Session.ThreeDigitsRoundTrip | main.py:27 | reading the written suffix back gives the number drawn |
| Session.ThreeDigitsInjective | main.py:27 | different suffixes are written differently |
| Session.DistinctSuffixesDistinctPaths | main.py:27 | two dumps of one session with different suffixes go to different files |
| Session.Reshuffle | main.py:202 | the shuffle at the start of block b yields block b's order, a rearrangement of the built list, appended to the orders so far and to the trials run |
| Session.Session.constructor | main.py:111-112 | the state before `main` runs: RESULTS holds only the header row, PART_ID is the empty string it is given at main.py:280, and the trial counter (the local `trial_no` of main.py:154) is 0 |
| Session.Session.Record | main.py:206 | one call appends exactly one row with PART_ID, trial_no, the trial's record and the phase |
| Session.Session.Step | main.py:203-207 | one trial: an aborted trial leaves RESULTS and trial_no as they were; a completed one appends its row with the next trial number and advances trial_no; the ledger keeps recording the trials run |
| Session.Session.Save | main.py:21-31 | the dump writes every current row, in order, to `results/<PART_ID>_<suffix>_beh.csv`, and changes nothing |
| Session.Session.Dumps | main.py:21-31 | the dumps of the ledger as the process leaves it: when `main` finished, the dump at its end (main.py:213) under the first suffix, then always the exit hook's under the second; every dump writes the current rows |
| Session.Session.Train | main.py:159-177 | the training loop runs the given letters in order, recording each completed trial as a training row followed by its feedback text, and stops at an aborted trial |
| Session.FeedbackExtends | main.py:165-173 | the feedback shown after a completed training trial is the feedback so far followed by that trial's text |
| Session.Session.RunBlock | main.py:203-207 | one pass runs the block's order in sequence, appending one experiment row per completed trial, and stops at an aborted trial |
| Session.Session.Block | main.py:201-210 | block b reshuffles the list in place, runs it, and shows the break screen exactly when it completed and is not the last block |
| Session.Session.RunBlocks | main.py:201-210 | the experiment loop runs the block orders in sequence, records one row per completed trial, and shows the break screen after every completed block but the last; after an abort the last block order reported is the block the aborted trial belongs to, so no break is claimed for a block that did not finish |
| Session.Session.Conduct | main.py:154-210 | after the header the ledger holds one row per completed trial, numbered 1.., training rows first; a full session has 1 + NO_TRAINING_TRIALS + NO_BLOCKS * len(sequence) rows; an aborted one ends at the aborted trial, which lies in the last block reported (or in training when no block was reached) |
| Session.Session.Run | main.py:115-210 | `main`: a closed dialog and a wrong frame rate end it before any trial, with only the header in RESULTS; otherwise PART_ID is set and the training and block loops are run, with the ledger, feedback and break guarantees above |
| Session.Execute | main.py:279-282 | the program run: it ends cancelled exactly when the dialog was closed, on a wrong frame rate exactly when the dialog passed and the measured rate differs, and otherwise by a user abort (the last trial started was aborted, within the last block reached) or finished. A finished session is dumped twice, first at the end of `main` under the first suffix and then by the exit hook under the second; any other ending is dumped once, by the exit hook. Every dump writes the same rows, returned as `rows`: the header, then the classified records of the trials completed, in order, numbered 1.., training rows first, with the expected count |

## Left out

- Rendering and timing are not modelled: windows, text and image stimuli, `draw`, `flip`, `core.wait`, the mouse, and the clock reset at stimulus onset. Reaction times are opaque reals passed through unchanged.
- The dialogs (main.py:119-123, 138-141) are not modelled. Their outcome and fields are inputs.
- `show_image` and `show_info` are not modelled, including their key waits and the welcome, instruction and end screens. The `e` test in `show_info` (main.py:94-97) can never fire, because `waitKeys` there only accepts `space`. The break screen is modelled only as whether it is shown. Pressing `e` on the break screen calls `exit(0)` (main.py:42-46): the session then ends after that block's rows, dumped once by the exit hook and not at the end of `main`. The model assumes the break screen is always left with `space`, so its `Finished` ending and its two dumps do not cover that exit.
- The INTERSTIM_TIME blank flips (main.py:181-182, 216-217) are not modelled. They only render.
- YAML loading (main.py:127) is not modelled. The configuration is a record of the entries the logic reads.
- File I/O, CSV formatting and logging are not modelled. A dump is modelled as its path and its rows. A file is modelled as the sequence of its lines.
- The `isinstance` check of `read_text_from_file` (main.py:58-60) is not modelled. The model's argument is always a list of lines.
- Frame-rate detection and the screen helpers (main.py:17, 133) are not modelled. The measured frame rate is an input.
- Randomness is not modelled; its results are inputs:
  - the training letters (main.py:160), each one of STIM_LETTERS;
  - the random positions of each block's shuffle;
  - the two three-digit file-name suffixes (main.py:27), one per dump.
- Input beyond what is given counts as nothing pressed: a trial or frame the keyboard input does not list, and a shuffle position the input does not list, which is taken as 0.
- Stimuli.Shuffle: the shuffle is CPython's `random.shuffle` exchange sequence driven by given positions, and a position larger than its index is read as the index. The model proves the result is a rearrangement of the list. It does not prove that every rearrangement can occur.
- A configuration with fewer than four letters, fewer than two reaction keys or STIM_TIME below 1 is excluded (`Config.Valid`). The script then fails only once it reaches the line that needs the missing entry:
  - too few reaction keys: at main.py:251, in the first trial;
  - STIM_TIME below 1: at main.py:243, in the first trial, where `reaction` is read unbound;
  - too few letters: in the first training trial (main.py:160 or 254-257), or at main.py:187-190 when there is no training trial.
  Some runs never reach those lines, and for them the configuration causes no failure. A closed dialog raises its own error and a wrong frame rate returns, both dumping the header row. For too few keys or STIM_TIME below 1, a session with no trial at all finishes normally. The model does not cover these runs for such a configuration.
- Session.ResultsPath: the path is written with `/`; `os.path.join` (main.py:27) uses the platform's separator, which is a backslash on Windows, and it drops `results` altogether when PART_ID starts with a path separator (an identifier typed as `/x` gives `/x..._beh.csv`).
- Within one frame, the abort key and the reaction keys are seen as the input gives them. How the PsychoPy event buffer carries unread keys from one poll to the next is not modelled.
- The unused imports (`mean`, `combinations_with_replacement`, `product`) are not modelled.

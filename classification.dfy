/** Classification of one trial's response (main.py, end of `run_trial`) and
    the feedback text shown after a training trial.

    The script decides both verdicts by position in STIM_LETTERS: positions 0
    and 3 belong to the left key, 1 and 2 to the right key, and 0 and 1 are the
    congruent ones. `run_trial` names the four letters `left_congr`,
    `right_congr`, `right_incongr` and `left_incongr`; `Role` gives those names
    a side and a congruency, so that the positional rules can be checked
    against what the names say. */
module Classification {

  /** The four stimulus roles: `left_congr`, `right_congr`, `left_incongr`
      and `right_incongr` in `run_trial`. */
  datatype Role = LeftCongruent | RightCongruent | LeftIncongruent | RightIncongruent

  datatype Side = Left | Right

  /** Where each role's letter sits in STIM_LETTERS. */
  function Position(r: Role): nat {
    match r
    case LeftCongruent => 0
    case RightCongruent => 1
    case RightIncongruent => 2
    case LeftIncongruent => 3
  }

  function SideOf(r: Role): Side {
    if r == LeftCongruent || r == LeftIncongruent then Left else Right
  }

  predicate CongruentRole(r: Role) {
    r == LeftCongruent || r == RightCongruent
  }

  function RoleLetter(letters: seq<string>, r: Role): string
    requires |letters| >= 4
  {
    letters[Position(r)]
  }

  /** REACTION_KEYS[0] answers the left side, REACTION_KEYS[1] the right. */
  function SideKey(keys: seq<string>, s: Side): string
    requires |keys| >= 2
  {
    if s == Left then keys[0] else keys[1]
  }

  /** `congr` as run_trial computes it: the stimulus is the first or the
      second letter. */
  predicate IsCongruent(letters: seq<string>, stim: string)
    requires |letters| >= 4
  {
    stim == letters[0] || stim == letters[1]
  }

  /** `corr` as run_trial computes it (`cond1 or cond2`). */
  predicate IsCorrect(letters: seq<string>, keys: seq<string>, stim: string, key: string)
    requires |letters| >= 4 && |keys| >= 2
  {
    || (key == keys[0] && (stim == letters[0] || stim == letters[3]))
    || (key == keys[1] && (stim == letters[1] || stim == letters[2]))
  }

  /** The positional congruency test is the role-based one: a stimulus is
      congruent exactly when it is the letter of a congruent role. */
  lemma CongruentIffCongruentRole(letters: seq<string>, stim: string)
    requires |letters| >= 4
    ensures IsCongruent(letters, stim) <==>
              exists r :: CongruentRole(r) && RoleLetter(letters, r) == stim
  {
    if IsCongruent(letters, stim) {
      var r := if stim == letters[0] then LeftCongruent else RightCongruent;
      assert CongruentRole(r) && RoleLetter(letters, r) == stim;
    }
  }

  /** The positional correctness test is the role-based one: a response is
      correct exactly when the stimulus is the letter of some role and the key
      is the key of that role's side. */
  lemma CorrectIffKeyOfRoleSide(letters: seq<string>, keys: seq<string>, stim: string, key: string)
    requires |letters| >= 4 && |keys| >= 2
    ensures IsCorrect(letters, keys, stim, key) <==>
              exists r :: RoleLetter(letters, r) == stim && key == SideKey(keys, SideOf(r))
  {
    if IsCorrect(letters, keys, stim, key) {
      var r :=
        if key == keys[0] && stim == letters[0] then LeftCongruent
        else if key == keys[0] && stim == letters[3] then LeftIncongruent
        else if stim == letters[1] then RightCongruent
        else RightIncongruent;
      assert RoleLetter(letters, r) == stim && key == SideKey(keys, SideOf(r));
    }
    if exists r :: RoleLetter(letters, r) == stim && key == SideKey(keys, SideOf(r)) {
      var r :| RoleLetter(letters, r) == stim && key == SideKey(keys, SideOf(r));
      match r
      case LeftCongruent =>
      case RightCongruent =>
      case LeftIncongruent =>
      case RightIncongruent =>
    }
  }

  /** With four distinct letters, the stimulus of a role is answered correctly
      by exactly one key: the key of its side. */
  lemma {:induction false} CorrectKeyOfRole(letters: seq<string>, keys: seq<string>, r: Role, key: string)
    requires |letters| >= 4 && |keys| >= 2
    requires forall i, j :: 0 <= i < j < 4 ==> letters[i] != letters[j]
    ensures IsCorrect(letters, keys, RoleLetter(letters, r), key) <==> key == SideKey(keys, SideOf(r))
  {
    assert letters[0] != letters[1] && letters[0] != letters[2] && letters[0] != letters[3];
    assert letters[1] != letters[2] && letters[1] != letters[3] && letters[2] != letters[3];
  }

  /** Congruency depends on the stimulus alone: two responses to the same
      stimulus never disagree on it, and it holds exactly for the letters of
      the two congruent roles (the key and reaction time are not arguments). */
  lemma {:induction false} CongruencyOfRole(letters: seq<string>, r: Role)
    requires |letters| >= 4
    requires forall i, j :: 0 <= i < j < 4 ==> letters[i] != letters[j]
    ensures IsCongruent(letters, RoleLetter(letters, r)) <==> CongruentRole(r)
  {
    assert letters[0] != letters[2] && letters[0] != letters[3];
    assert letters[1] != letters[2] && letters[1] != letters[3];
  }

  /** A key that is neither reaction key never makes a response correct,
      whatever the stimulus; in particular the timeout sentinel. */
  lemma ForeignKeyIsIncorrect(letters: seq<string>, keys: seq<string>, stim: string, key: string)
    requires |letters| >= 4 && |keys| >= 2
    requires key != keys[0] && key != keys[1]
    ensures !IsCorrect(letters, keys, stim, key)
  {
  }

  const Correct: string := "Poprawnie"
  const Incorrect: string := "Niepoprawnie"
  const TooSlow: string := "Za wolno!"

  /** The training feedback text (main.py, after each training trial): a key
      from REACTION_KEYS is judged by `corr`, anything else is too slow. */
  function Feedback(keys: seq<string>, key: string, corr: bool): (text: string)
    ensures text == TooSlow <==> key !in keys
    ensures text == Correct <==> key in keys && corr
    ensures text == Incorrect <==> key in keys && !corr
  {
    if key in keys then (if corr then Correct else Incorrect) else TooSlow
  }
}

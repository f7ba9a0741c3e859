/** One trial (main.py `run_trial`, with `check_exit` and `abort_with_error`).

    A trial draws FIX_CROSS_TIME fixation frames, then shows the stimulus for
    at most STIM_TIME frames. On each stimulus frame it first asks whether the
    abort key 'e' is pending (if so the trial raises and the whole session
    ends), then polls for the reaction keys; the first frame with a reaction
    key ends the loop before that frame's stimulus is drawn. What the input
    source delivers on each stimulus frame is given as a `FrameInput`: whether
    'e' is pending and the key events pending for the reaction-key poll, with
    their times on the clock that is reset at stimulus onset. Those times are
    passed through as opaque values. */
module Trial {
  import opened Config
  import opened Classification

  datatype Event = Event(key: string, time: real)

  datatype FrameInput = FrameInput(abort: bool, events: seq<Event>)

  /** How the stimulus loop ends. */
  datatype Outcome = Aborted | Responded(key: string, rt: real) | TimedOut

  /** The loop's outcome and how many stimulus frames it drew. */
  datatype Presentation = Presentation(outcome: Outcome, draws: nat)

  /** What `run_trial` returns, or the abort that it raises. */
  datatype TrialResult =
    | TrialAborted
    | TrialDone(key: string, rt: real, corr: bool, congr: bool)

  /** The key and reaction time recorded when nothing was pressed in time. */
  const NoKey: string := "no_key"
  const NoRt: real := -1.0

  /** `event.getKeys(keyList=keys, timeStamped=clock)`: the pending events for
      the listed keys, in the order they occurred. */
  function Matching(keys: seq<string>, events: seq<Event>): (r: seq<Event>)
    ensures |r| <= |events|
  {
    if events == [] then []
    else (if events[0].key in keys then [events[0]] else []) + Matching(keys, events[1..])
  }

  /** A poll returns exactly the pending events whose key is listed. */
  lemma {:induction false} MatchingMembers(keys: seq<string>, events: seq<Event>)
    ensures forall e :: e in Matching(keys, events) <==> e in events && e.key in keys
  {
    if events != [] {
      MatchingMembers(keys, events[1..]);
      assert events == [events[0]] + events[1..];
    }
  }

  /** The first event a poll returns is the earliest pending event for a
      listed key. */
  lemma {:induction false} MatchingHead(keys: seq<string>, events: seq<Event>)
    requires Matching(keys, events) != []
    ensures exists i :: 0 <= i < |events| && events[i] == Matching(keys, events)[0]
              && forall j :: 0 <= j < i ==> events[j].key !in keys
  {
    if events[0].key !in keys {
      MatchingHead(keys, events[1..]);
      var i :| 0 <= i < |events[1..]| && events[1..][i] == Matching(keys, events[1..])[0]
                 && forall j :: 0 <= j < i ==> events[1..][j].key !in keys;
      assert events[i + 1] == Matching(keys, events)[0];
      forall j | 0 <= j < i + 1 ensures events[j].key !in keys {
        if j > 0 { assert events[j] == events[1..][j - 1]; }
      }
    } else {
      assert events[0] == Matching(keys, events)[0];
    }
  }

  /** The input of stimulus frame k; a frame the input does not list has
      nothing pending. */
  function FrameAt(frames: seq<FrameInput>, k: nat): FrameInput {
    if k < |frames| then frames[k] else FrameInput(false, [])
  }

  /** A frame on which the loop neither aborts nor stops: the stimulus is
      drawn and the loop goes on. */
  predicate Quiet(keys: seq<string>, f: FrameInput) {
    !f.abort && Matching(keys, f.events) == []
  }

  /** How a frame that is not quiet ends the loop: the abort check comes
      first, so a pending 'e' wins over a pending reaction key. */
  function Verdict(keys: seq<string>, f: FrameInput): (o: Outcome)
    requires !Quiet(keys, f)
    ensures o.Responded? ==> o.key in keys
  {
    if f.abort then Aborted
    else
      MatchingMembers(keys, f.events);
      var first := Matching(keys, f.events)[0];
      Responded(first.key, first.time)
  }

  /** The stimulus loop from frame k on, when frames 0..k-1 were quiet. */
  function StimulusFrom(keys: seq<string>, stimTime: int, frames: seq<FrameInput>, k: nat): Presentation
    decreases stimTime - k
  {
    if k >= stimTime then Presentation(TimedOut, k)
    else if !Quiet(keys, FrameAt(frames, k)) then Presentation(Verdict(keys, FrameAt(frames, k)), k)
    else StimulusFrom(keys, stimTime, frames, k + 1)
  }

  /** The stimulus loop of a trial. */
  function Stimulus(keys: seq<string>, stimTime: int, frames: seq<FrameInput>): Presentation {
    StimulusFrom(keys, stimTime, frames, 0)
  }

  /** What the loop does, stated outright: it draws the stimulus once per
      quiet frame, never more than stimTime times; it times out exactly when
      all stimTime frames were quiet; otherwise it stops at the first frame
      that is not quiet, with that frame's verdict. */
  lemma {:induction false} StimulusFromStops(keys: seq<string>, stimTime: int, frames: seq<FrameInput>, k: nat)
    requires k <= stimTime
    ensures var p := StimulusFrom(keys, stimTime, frames, k);
      && k <= p.draws <= stimTime
      && (forall j :: k <= j < p.draws ==> Quiet(keys, FrameAt(frames, j)))
      && (p.outcome.TimedOut? <==> p.draws == stimTime)
      && (p.draws < stimTime ==>
            !Quiet(keys, FrameAt(frames, p.draws)) && p.outcome == Verdict(keys, FrameAt(frames, p.draws)))
    decreases stimTime - k
  {
    if k < stimTime && Quiet(keys, FrameAt(frames, k)) {
      StimulusFromStops(keys, stimTime, frames, k + 1);
    }
  }

  /** Early exit: when frames 0..k-1 are quiet and frame k is not, the loop
      stops on frame k after exactly k stimulus draws. */
  lemma StopsAtFirstBusyFrame(keys: seq<string>, stimTime: int, frames: seq<FrameInput>, k: nat)
    requires k < stimTime
    requires forall j :: 0 <= j < k ==> Quiet(keys, FrameAt(frames, j))
    requires !Quiet(keys, FrameAt(frames, k))
    ensures Stimulus(keys, stimTime, frames) == Presentation(Verdict(keys, FrameAt(frames, k)), k)
  {
    StimulusFromStops(keys, stimTime, frames, 0);
  }

  /** Timeout: when all stimTime frames are quiet, the stimulus is drawn on
      every one of them. */
  lemma AllQuietTimesOut(keys: seq<string>, stimTime: int, frames: seq<FrameInput>)
    requires stimTime >= 0
    requires forall j :: 0 <= j < stimTime ==> Quiet(keys, FrameAt(frames, j))
    ensures Stimulus(keys, stimTime, frames) == Presentation(TimedOut, stimTime)
  {
    StimulusFromStops(keys, stimTime, frames, 0);
  }

  /** The abort check runs before the response poll: on the first busy frame,
      a pending 'e' aborts even when a reaction key is pending too. */
  lemma AbortBeatsResponse(keys: seq<string>, stimTime: int, frames: seq<FrameInput>, k: nat)
    requires k < stimTime
    requires forall j :: 0 <= j < k ==> Quiet(keys, FrameAt(frames, j))
    requires FrameAt(frames, k).abort
    ensures Stimulus(keys, stimTime, frames) == Presentation(Aborted, k)
  {
    StopsAtFirstBusyFrame(keys, stimTime, frames, k);
  }

  /** A response reports the key and time of the first pending reaction-key
      event of the frame on which the loop stopped. */
  lemma ResponseIsFirstEvent(keys: seq<string>, stimTime: int, frames: seq<FrameInput>)
    requires stimTime >= 0
    requires Stimulus(keys, stimTime, frames).outcome.Responded?
    ensures var p := Stimulus(keys, stimTime, frames);
      var f := FrameAt(frames, p.draws);
      && p.draws < stimTime && !f.abort
      && exists i :: 0 <= i < |f.events| && f.events[i].key == p.outcome.key && f.events[i].time == p.outcome.rt
                     && f.events[i].key in keys
                     && forall j :: 0 <= j < i ==> f.events[j].key !in keys
  {
    StimulusFromStops(keys, stimTime, frames, 0);
    var p := Stimulus(keys, stimTime, frames);
    MatchingHead(keys, FrameAt(frames, p.draws).events);
  }

  /** The `for _ in range(STIM_TIME)` loop with its early `break`. */
  method PresentStimulus(keys: seq<string>, stimTime: int, frames: seq<FrameInput>)
    returns (outcome: Outcome, draws: nat)
    requires stimTime >= 1
    ensures Presentation(outcome, draws) == Stimulus(keys, stimTime, frames)
    ensures draws <= stimTime
    ensures outcome.TimedOut? <==> draws == stimTime
    ensures forall j :: 0 <= j < draws ==> Quiet(keys, FrameAt(frames, j))
  {
    StimulusFromStops(keys, stimTime, frames, 0);
    draws := 0;
    var reaction: seq<Event> := [];
    var k := 0;
    while k < stimTime
      invariant 0 <= k <= stimTime && draws == k && reaction == []
      invariant StimulusFrom(keys, stimTime, frames, k) == Stimulus(keys, stimTime, frames)
    {
      var frame := FrameAt(frames, k);
      if frame.abort {
        // check_exit(): abort_with_error raises out of the trial
        return Aborted, draws;
      }
      reaction := Matching(keys, frame.events);
      if reaction != [] {
        break;
      }
      // stim.draw(); win.flip()
      draws := draws + 1;
      k := k + 1;
    }
    if reaction != [] {
      outcome := Responded(reaction[0].key, reaction[0].time);
    } else {
      outcome := TimedOut;
    }
  }

  /** The trial's record, from the stimulus loop's outcome and the stimulus. */
  function TrialOf(c: Config, stim: string, frames: seq<FrameInput>): TrialResult
    requires Valid(c)
  {
    match Stimulus(c.reactionKeys, c.stimTime, frames).outcome
    case Aborted => TrialAborted
    case Responded(key, rt) =>
      TrialDone(key, rt, IsCorrect(c.stimLetters, c.reactionKeys, stim, key), IsCongruent(c.stimLetters, stim))
    case TimedOut =>
      TrialDone(NoKey, NoRt, IsCorrect(c.stimLetters, c.reactionKeys, stim, NoKey), IsCongruent(c.stimLetters, stim))
  }

  /** `run_trial`: fixation frames, the stimulus loop, then classification. */
  method RunTrial(c: Config, stim: string, frames: seq<FrameInput>)
    returns (result: TrialResult, fixationDraws: nat, stimulusDraws: nat)
    requires Valid(c)
    ensures result == TrialOf(c, stim, frames)
    ensures fixationDraws == Iterations(c.fixCrossTime)
    ensures stimulusDraws == Stimulus(c.reactionKeys, c.stimTime, frames).draws
  {
    fixationDraws := 0;
    for i := 0 to Iterations(c.fixCrossTime)
      invariant fixationDraws == i
    {
      // fix_cross.draw(); win.flip()
      fixationDraws := fixationDraws + 1;
    }
    // event.clearEvents(); win.callOnFlip(clock.reset): the frames' events
    // start empty and their times count from stimulus onset.
    var outcome;
    outcome, stimulusDraws := PresentStimulus(c.reactionKeys, c.stimTime, frames);
    var key, rt;
    match outcome {
      case Aborted =>
        return TrialAborted, fixationDraws, stimulusDraws;
      case Responded(k, t) =>
        key, rt := k, t;
      case TimedOut =>
        key, rt := NoKey, NoRt;
    }
    var corr := IsCorrect(c.stimLetters, c.reactionKeys, stim, key);
    var congr := IsCongruent(c.stimLetters, stim);
    result := TrialDone(key, rt, corr, congr);
  }

  /** A trial in which no reaction key was pressed on any of its STIM_TIME
      frames (and 'e' was not pressed) records 'no_key' and -1.0; it is
      incorrect unless 'no_key' is itself a reaction key, and its training
      feedback is "Za wolno!" unless 'no_key' is listed in REACTION_KEYS. */
  lemma TimeoutRecord(c: Config, stim: string, frames: seq<FrameInput>)
    requires Valid(c)
    requires forall j :: 0 <= j < c.stimTime ==> Quiet(c.reactionKeys, FrameAt(frames, j))
    ensures TrialOf(c, stim, frames).TrialDone?
    ensures TrialOf(c, stim, frames).key == NoKey && TrialOf(c, stim, frames).rt == NoRt
    ensures NoKey != c.reactionKeys[0] && NoKey != c.reactionKeys[1] ==> !TrialOf(c, stim, frames).corr
    ensures NoKey !in c.reactionKeys ==>
              Feedback(c.reactionKeys, TrialOf(c, stim, frames).key, TrialOf(c, stim, frames).corr) == TooSlow
  {
    AllQuietTimesOut(c.reactionKeys, c.stimTime, frames);
  }

  /** A trial that ended on a reaction key gets "Poprawnie" or
      "Niepoprawnie" according to `corr`, never "Za wolno!". */
  lemma ResponseFeedback(c: Config, stim: string, frames: seq<FrameInput>)
    requires Valid(c)
    requires Stimulus(c.reactionKeys, c.stimTime, frames).outcome.Responded?
    ensures var r := TrialOf(c, stim, frames);
      && r.TrialDone?
      && Feedback(c.reactionKeys, r.key, r.corr) == (if r.corr then Correct else Incorrect)
  {
    StimulusFromStops(c.reactionKeys, c.stimTime, frames, 0);
  }

  /** Congruency is fixed by the stimulus: whatever happens during two trials
      with the same stimulus, their `congr` agree, and it is the positional
      test on the stimulus alone. */
  lemma CongruencyIgnoresResponse(c: Config, stim: string, frames1: seq<FrameInput>, frames2: seq<FrameInput>)
    requires Valid(c)
    requires TrialOf(c, stim, frames1).TrialDone? && TrialOf(c, stim, frames2).TrialDone?
    ensures TrialOf(c, stim, frames1).congr == TrialOf(c, stim, frames2).congr == IsCongruent(c.stimLetters, stim)
  {
  }

  /** A trial is aborted exactly when the loop reaches a frame with 'e'
      pending before any frame with a reaction key. */
  lemma AbortedIff(c: Config, stim: string, frames: seq<FrameInput>)
    requires Valid(c)
    ensures TrialOf(c, stim, frames) == TrialAborted <==>
              exists k :: 0 <= k < c.stimTime && FrameAt(frames, k).abort
                          && forall j :: 0 <= j < k ==> Quiet(c.reactionKeys, FrameAt(frames, j))
  {
    var keys := c.reactionKeys;
    StimulusFromStops(keys, c.stimTime, frames, 0);
    var p := Stimulus(keys, c.stimTime, frames);
    if TrialOf(c, stim, frames) == TrialAborted {
      assert p.draws < c.stimTime && FrameAt(frames, p.draws).abort;
    }
    if exists k :: 0 <= k < c.stimTime && FrameAt(frames, k).abort
                   && forall j :: 0 <= j < k ==> Quiet(keys, FrameAt(frames, j)) {
      var k :| 0 <= k < c.stimTime && FrameAt(frames, k).abort
               && forall j :: 0 <= j < k ==> Quiet(keys, FrameAt(frames, j));
      AbortBeatsResponse(keys, c.stimTime, frames, k);
    }
  }

  /** A worked session configuration: letters Q (left congruent), P (right
      congruent), R (right incongruent) and S (left incongruent), keys f and
      j. A trial with nothing pressed times out as an incorrect 'no_key'
      record; Q answered with f at 0.4 is correct and congruent; S answered
      with j is incorrect and incongruent. */
  lemma WorkedTrials()
    ensures var c := Config(0, 60, 2, 1, ["Q", "P", "R", "S"], ["f", "j"], 1, 1, 1, 1, 60);
      && TrialOf(c, "P", []) == TrialDone(NoKey, NoRt, false, true)
      && TrialOf(c, "Q", [FrameInput(false, [Event("f", 0.4)])]) == TrialDone("f", 0.4, true, true)
      && TrialOf(c, "S", [FrameInput(false, [Event("j", 0.5)])]) == TrialDone("j", 0.5, false, false)
  {
    var c := Config(0, 60, 2, 1, ["Q", "P", "R", "S"], ["f", "j"], 1, 1, 1, 1, 60);
    AllQuietTimesOut(c.reactionKeys, c.stimTime, []);
    StopsAtFirstBusyFrame(c.reactionKeys, c.stimTime, [FrameInput(false, [Event("f", 0.4)])], 0);
    StopsAtFirstBusyFrame(c.reactionKeys, c.stimTime, [FrameInput(false, [Event("j", 0.5)])], 0);
  }
}

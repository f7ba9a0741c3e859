/** The experiment's stimulus sequence (main.py, before the block loop) and
    its per-block reshuffling.

    The sequence is the four role letters, each repeated its configured
    proportion, concatenated in the order left-congruent, right-congruent,
    left-incongruent, right-incongruent. At the start of every block the one
    list is shuffled in place with `random.shuffle`, starting from the order
    the previous block left it in. The shuffle is modelled as the exchange
    sequence `random.shuffle` performs (for i from the last index down to 1,
    swap position i with a random position j <= i), with the random positions
    given as input. */
module Stimuli {
  import opened Config
  import opened Classification

  /** `[x] * n` in Python. */
  function Repeat(x: string, n: int): (r: seq<string>)
    ensures |r| == Iterations(n)
    decreases Iterations(n)
  {
    if n <= 0 then [] else [x] + Repeat(x, n - 1)
  }

  /** `[x] * n` holds x and nothing else, n times. */
  lemma {:induction false} RepeatCount(x: string, n: int)
    ensures multiset(Repeat(x, n)) == multiset{}[x := Iterations(n)]
    decreases Iterations(n)
  {
    if n > 0 {
      RepeatCount(x, n - 1);
    }
  }

  /** How often a role's letter is put into the sequence. */
  function Proportion(c: Config, r: Role): int {
    match r
    case LeftCongruent => c.leftCongProportion
    case RightCongruent => c.rightCongProportion
    case LeftIncongruent => c.leftIncongProportion
    case RightIncongruent => c.rightIncongProportion
  }

  /** `stim_seq_experiment` as built before the first block. */
  function BuildSequence(c: Config): (s: seq<string>)
    requires |c.stimLetters| >= 4
    ensures |s| == Iterations(c.leftCongProportion) + Iterations(c.rightCongProportion)
                   + Iterations(c.leftIncongProportion) + Iterations(c.rightIncongProportion)
  {
    Repeat(RoleLetter(c.stimLetters, LeftCongruent), Proportion(c, LeftCongruent))
    + Repeat(RoleLetter(c.stimLetters, RightCongruent), Proportion(c, RightCongruent))
    + Repeat(RoleLetter(c.stimLetters, LeftIncongruent), Proportion(c, LeftIncongruent))
    + Repeat(RoleLetter(c.stimLetters, RightIncongruent), Proportion(c, RightIncongruent))
  }

  /** The number of times `x` occurs in the sequence is the sum of the
      proportions of the roles whose letter is `x`. */
  function RoleShare(c: Config, r: Role, x: string): nat
    requires |c.stimLetters| >= 4
  {
    if RoleLetter(c.stimLetters, r) == x then Iterations(Proportion(c, r)) else 0
  }

  lemma SequenceComposition(c: Config, x: string)
    requires |c.stimLetters| >= 4
    ensures multiset(BuildSequence(c))[x] ==
              RoleShare(c, LeftCongruent, x) + RoleShare(c, RightCongruent, x)
              + RoleShare(c, LeftIncongruent, x) + RoleShare(c, RightIncongruent, x)
  {
    var L := c.stimLetters;
    var a := Repeat(RoleLetter(L, LeftCongruent), Proportion(c, LeftCongruent));
    var b := Repeat(RoleLetter(L, RightCongruent), Proportion(c, RightCongruent));
    var d := Repeat(RoleLetter(L, LeftIncongruent), Proportion(c, LeftIncongruent));
    var e := Repeat(RoleLetter(L, RightIncongruent), Proportion(c, RightIncongruent));
    assert BuildSequence(c) == a + b + d + e;
    RepeatCount(RoleLetter(L, LeftCongruent), Proportion(c, LeftCongruent));
    RepeatCount(RoleLetter(L, RightCongruent), Proportion(c, RightCongruent));
    RepeatCount(RoleLetter(L, LeftIncongruent), Proportion(c, LeftIncongruent));
    RepeatCount(RoleLetter(L, RightIncongruent), Proportion(c, RightIncongruent));
    assert multiset(a + b + d + e) == multiset(a) + multiset(b) + multiset(d) + multiset(e);
    assert multiset(a)[x] == RoleShare(c, LeftCongruent, x);
    assert multiset(b)[x] == RoleShare(c, RightCongruent, x);
    assert multiset(d)[x] == RoleShare(c, LeftIncongruent, x);
    assert multiset(e)[x] == RoleShare(c, RightIncongruent, x);
  }

  /** With four distinct letters, each role's letter occurs exactly as often
      as that role's proportion asks. */
  lemma {:induction false} RoleLetterCount(c: Config, r: Role)
    requires |c.stimLetters| >= 4
    requires forall i, j :: 0 <= i < j < 4 ==> c.stimLetters[i] != c.stimLetters[j]
    ensures multiset(BuildSequence(c))[RoleLetter(c.stimLetters, r)] == Iterations(Proportion(c, r))
  {
    var L := c.stimLetters;
    assert L[0] != L[1] && L[0] != L[2] && L[0] != L[3];
    assert L[1] != L[2] && L[1] != L[3] && L[2] != L[3];
    SequenceComposition(c, RoleLetter(L, r));
  }

  /** `x[i], x[j] = x[j], x[i]` */
  function Swap(s: seq<string>, i: nat, j: nat): (t: seq<string>)
    requires i < |s| && j < |s|
    ensures |t| == |s|
  {
    s[i := s[j]][j := s[i]]
  }

  lemma SwapKeepsLetters(s: seq<string>, i: nat, j: nat)
    requires i < |s| && j < |s|
    ensures multiset(Swap(s, i, j)) == multiset(s)
  {
  }

  /** The random position drawn for index i: `randbelow(i + 1)` is at most
      i, and a larger value in the input is read as i. */
  function Partner(draw: nat, i: nat): (j: nat)
    ensures j <= i
    ensures draw <= i ==> j == draw
  {
    if draw <= i then draw else i
  }

  /** The k-th random position of a shuffle; positions the input does not
      list are 0. */
  function DrawAt(draws: seq<nat>, k: int): nat {
    if 0 <= k < |draws| then draws[k] else 0
  }

  /** The exchanges for indices i down to 1 of a list of length n: index i
      takes the (n-1-i)-th random position. */
  function ExchangesFrom(s: seq<string>, draws: seq<nat>, i: nat): (t: seq<string>)
    ensures |t| == |s|
    decreases i
  {
    if i == 0 || i >= |s| then s
    else ExchangesFrom(Swap(s, i, Partner(DrawAt(draws, |s| - 1 - i), i)), draws, i - 1)
  }

  lemma {:induction false} ExchangesKeepLetters(s: seq<string>, draws: seq<nat>, i: nat)
    ensures multiset(ExchangesFrom(s, draws, i)) == multiset(s)
    decreases i
  {
    if i != 0 && i < |s| {
      var j := Partner(DrawAt(draws, |s| - 1 - i), i);
      SwapKeepsLetters(s, i, j);
      ExchangesKeepLetters(Swap(s, i, j), draws, i - 1);
    }
  }

  /** `random.shuffle(s)`: for i from the last index down to 1, exchange
      position i with a random position at most i. It uses |s|-1 random
      positions, given in the order they are drawn. */
  function Shuffle(s: seq<string>, draws: seq<nat>): (t: seq<string>)
    ensures |t| == |s|
  {
    if s == [] then s else ExchangesFrom(s, draws, |s| - 1)
  }

  /** The shuffle rearranges the letters: each occurs as often as before. */
  lemma ShuffleKeepsLetters(s: seq<string>, draws: seq<nat>)
    ensures multiset(Shuffle(s, draws)) == multiset(s)
  {
    if s != [] {
      ExchangesKeepLetters(s, draws, |s| - 1);
    }
  }

  /** The orders of the first n blocks: the one list is shuffled in place at
      the start of every block, so block 0 shuffles the built sequence and
      every later block reshuffles the order the block before it ran in. */
  function Reshuffled(base: seq<string>, draws: seq<seq<nat>>, n: nat): (orders: seq<seq<string>>)
    requires n <= |draws|
    ensures |orders| == n
  {
    if n == 0 then []
    else
      var prev := Reshuffled(base, draws, n - 1);
      prev + [Shuffle(if n == 1 then base else prev[n - 2], draws[n - 1])]
  }

  /** Running more blocks does not change the orders of the earlier ones. */
  lemma {:induction false} ReshuffledPrefix(base: seq<string>, draws: seq<seq<nat>>, m: nat, n: nat)
    requires m <= n <= |draws|
    ensures Reshuffled(base, draws, m) == Reshuffled(base, draws, n)[..m]
    decreases n
  {
    if m < n {
      ReshuffledPrefix(base, draws, m, n - 1);
      assert Reshuffled(base, draws, n)[..n - 1] == Reshuffled(base, draws, n - 1);
    }
  }

  /** Block b's order is block b-1's order (the built sequence for block 0)
      shuffled with block b's draws. */
  lemma ReshuffledChain(base: seq<string>, draws: seq<seq<nat>>, n: nat, b: nat)
    requires b < n <= |draws|
    ensures Reshuffled(base, draws, n)[b] ==
              Shuffle(if b == 0 then base else Reshuffled(base, draws, n)[b - 1], draws[b])
  {
    ReshuffledPrefix(base, draws, b + 1, n);
    var prefix := Reshuffled(base, draws, b + 1);
    assert Reshuffled(base, draws, n)[b] == prefix[b];
    if b > 0 {
      assert Reshuffled(base, draws, n)[b - 1] == prefix[b - 1];
    }
  }

  /** One more block: knowing the orders of the first b blocks, block b's
      order is the previous one shuffled with block b's draws, and it holds
      the letters of the built sequence. */
  lemma ReshuffledStep(base: seq<string>, draws: seq<seq<nat>>, n: nat, b: nat, prior: seq<seq<string>>)
    requires b < n <= |draws|
    requires prior == Reshuffled(base, draws, n)[..b]
    ensures var order := Shuffle(if b == 0 then base else prior[b - 1], draws[b]);
      && prior + [order] == Reshuffled(base, draws, n)[..b + 1]
      && multiset(order) == multiset(base)
  {
    var all := Reshuffled(base, draws, n);
    ReshuffledChain(base, draws, n, b);
    ReshuffledKeepLetters(base, draws, n, b);
    assert all[..b + 1] == all[..b] + [all[b]];
    if b > 0 {
      assert prior[b - 1] == all[b - 1];
    }
  }

  /** Every block runs every letter of the built sequence, each as often as
      it occurs there. */
  lemma {:induction false} ReshuffledKeepLetters(base: seq<string>, draws: seq<seq<nat>>, n: nat, b: nat)
    requires b < n <= |draws|
    ensures multiset(Reshuffled(base, draws, n)[b]) == multiset(base)
    ensures |Reshuffled(base, draws, n)[b]| == |base|
    decreases b
  {
    ReshuffledChain(base, draws, n, b);
    var start := if b == 0 then base else Reshuffled(base, draws, n)[b - 1];
    ShuffleKeepsLetters(start, draws[b]);
    if b > 0 {
      ReshuffledKeepLetters(base, draws, n, b - 1);
    }
  }

  /** The concatenation of the blocks' presentation orders. */
  function Flatten<T>(blocks: seq<seq<T>>): (s: seq<T>)
    ensures |blocks| == 0 ==> s == []
  {
    if blocks == [] then [] else Flatten(blocks[..|blocks| - 1]) + blocks[|blocks| - 1]
  }

  /** Running one more block appends its order. */
  lemma FlattenAppend<T>(blocks: seq<seq<T>>, last: seq<T>)
    ensures Flatten(blocks + [last]) == Flatten(blocks) + last
  {
    assert (blocks + [last])[..|blocks|] == blocks;
  }

  /** Blocks of equal length m fill m positions each. */
  lemma {:induction false} FlattenBlocks<T>(blocks: seq<seq<T>>, m: nat)
    requires forall b :: 0 <= b < |blocks| ==> |blocks[b]| == m
    ensures |Flatten(blocks)| == |blocks| * m
  {
    if blocks != [] {
      var n := |blocks|;
      FlattenBlocks(blocks[..n - 1], m);
      assert (n - 1) * m + m == n * m;
    }
  }
}

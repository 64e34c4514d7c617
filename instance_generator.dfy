/** The solvability oracle the instance generator runs on every sampled
    roll sequence, and the pairing of two players' rolls
    (games/ludo/instancegenerator.py). */
module InstanceGenerator {
  import opened Common

  // ---------------------------------------------------------------------
  // Move counts with float('inf') as a separate value
  // ---------------------------------------------------------------------

  datatype Cost = Fin(n: nat) | Inf

  /** `next_moves + 1`: infinity stays infinite. */
  function Succ(c: Cost): (r: Cost)
    ensures r.Inf? <==> c.Inf?
    ensures c.Fin? ==> r.n == c.n + 1
  {
    match c
    case Fin(k) => Fin(k + 1)
    case Inf => Inf
  }

  /** `a < b` on counts: nothing is below itself, infinity is below nothing. */
  predicate Less(a: Cost, b: Cost)
  {
    a.Fin? && (b.Inf? || a.n < b.n)
  }

  /** `a <= b` on counts. */
  predicate AtMost(a: Cost, b: Cost)
  {
    b.Inf? || (a.Fin? && a.n <= b.n)
  }

  /** The moves a search reports, as their log strings describe them. */
  datatype Step =
    | MoveX(from: int, to: int)  // "Move X from .. to .."
    | MoveY(from: int, to: int)  // "Move Y from .. to .."
    | PlaceX                     // "Place X on 1"
    | PlaceY                     // "Place Y on 1"

  /** The pair `(min_move_count, best_sequence)`. */
  datatype Search = Search(count: Cost, steps: seq<Step>)

  /** One `if next_moves + 1 < min_move_count:` update: the candidate
      through `step` replaces the best so far only when strictly better, so
      the first of several equal minima is kept. */
  function Consider(best: Search, child: Search, step: Step): (r: Search)
    ensures AtMost(r.count, best.count) && AtMost(r.count, Succ(child.count))
    ensures r == best || r == Search(Succ(child.count), [step] + child.steps)
    ensures !Less(Succ(child.count), best.count) ==> r == best
  {
    if Less(Succ(child.count), best.count) then Search(Succ(child.count), [step] + child.steps) else best
  }

  /** Where a token in play ends up: it advances by the roll unless that
      would overshoot the last field, in which case it stays. */
  function Advance(p: int, roll: int, n: int): int
  {
    if p + roll <= n then p + roll else p
  }

  // ---------------------------------------------------------------------
  // _check_sequence.find_minimum (two tokens)
  // ---------------------------------------------------------------------

  /** `find_minimum(X, Y, roll_index)` for board size `n`, as a function of
      its arguments; the memo dictionary is left to `FindMinimumMemo`. */
  function FindMinimum(rolls: seq<int>, n: int, x: int, y: int, i: nat): Search
    decreases |rolls| - i
  {
    if x == n && y == n then Search(Fin(0), [])
    else if i >= |rolls| then Search(Inf, [])
    else
      var roll := rolls[i];
      var s0 := Search(Inf, []);
      var newX := Advance(x, roll, n);
      var s1 := if x != 0 && (newX != y || newX == n)
        then Consider(s0, FindMinimum(rolls, n, newX, y, i + 1), MoveX(x, newX)) else s0;
      var newY := Advance(y, roll, n);
      var s2 := if y != 0 && (newY != x || newY == n)
        then Consider(s1, FindMinimum(rolls, n, x, newY, i + 1), MoveY(y, newY)) else s1;
      var s3 := if roll == 6 && x == 0 && y != 1
        then Consider(s2, FindMinimum(rolls, n, 1, y, i + 1), PlaceX) else s2;
      var s4 := if roll == 6 && y == 0 && 1 != x
        then Consider(s3, FindMinimum(rolls, n, x, 1, i + 1), PlaceY) else s3;
      s4
  }

  /** The rules of the search, stated as a relation: which steps are open at
      `(x, y)` under roll `roll`. An in-play token advances (or stays, on an
      overshoot) unless it would land on the other token short of the
      finish; a home token enters on field 1 on a 6 if the other token is
      not there. */
  predicate Allowed(roll: int, n: int, x: int, y: int, s: Step)
  {
    match s
    case MoveX(from, to) => from == x && x != 0 && to == Advance(x, roll, n) && (to != y || to == n)
    case MoveY(from, to) => from == y && y != 0 && to == Advance(y, roll, n) && (to != x || to == n)
    case PlaceX => roll == 6 && x == 0 && y != 1
    case PlaceY => roll == 6 && y == 0 && x != 1
  }

  /** The positions after a step. */
  function Next(x: int, y: int, s: Step): (int, int)
  {
    match s
    case MoveX(_, to) => (to, y)
    case MoveY(_, to) => (x, to)
    case PlaceX => (1, y)
    case PlaceY => (x, 1)
  }

  /** `plan` takes the tokens from `(x, y)` to `(n, n)` using one roll per
      step from index `i` on, stopping as soon as both stand on the last field. */
  predicate Reaches(rolls: seq<int>, n: int, x: int, y: int, i: nat, plan: seq<Step>)
    decreases |plan|
  {
    if plan == [] then x == n && y == n
    else
      !(x == n && y == n) && i < |rolls| && Allowed(rolls[i], n, x, y, plan[0]) &&
      Reaches(rolls, n, Next(x, y, plan[0]).0, Next(x, y, plan[0]).1, i + 1, plan[1..])
  }

  /** A plan uses at most the rolls that are left. */
  lemma {:induction false} PlanLength(rolls: seq<int>, n: int, x: int, y: int, i: nat, plan: seq<Step>)
    requires Reaches(rolls, n, x, y, i, plan)
    ensures i + |plan| <= |rolls| || plan == []
    decreases |plan|
  {
    if |plan| > 1 {
      PlanLength(rolls, n, Next(x, y, plan[0]).0, Next(x, y, plan[0]).1, i + 1, plan[1..]);
    }
  }

  /** Soundness: a finite result comes with a plan of exactly that many
      steps that finishes the game. */
  lemma {:induction false} FindMinimumSound(rolls: seq<int>, n: int, x: int, y: int, i: nat)
    ensures var r := FindMinimum(rolls, n, x, y, i);
      r.count.Fin? ==> |r.steps| == r.count.n && Reaches(rolls, n, x, y, i, r.steps)
    decreases |rolls| - i
  {
    if !(x == n && y == n) && i < |rolls| {
      var roll := rolls[i];
      var s0 := Search(Inf, []);
      var newX := Advance(x, roll, n);
      var newY := Advance(y, roll, n);
      var s1 := s0;
      if x != 0 && (newX != y || newX == n) {
        FindMinimumSound(rolls, n, newX, y, i + 1);
        ConsiderSound(rolls, n, x, y, i, s0, MoveX(x, newX));
        s1 := Consider(s0, FindMinimum(rolls, n, newX, y, i + 1), MoveX(x, newX));
      }
      var s2 := s1;
      if y != 0 && (newY != x || newY == n) {
        FindMinimumSound(rolls, n, x, newY, i + 1);
        ConsiderSound(rolls, n, x, y, i, s1, MoveY(y, newY));
        s2 := Consider(s1, FindMinimum(rolls, n, x, newY, i + 1), MoveY(y, newY));
      }
      var s3 := s2;
      if roll == 6 && x == 0 && y != 1 {
        FindMinimumSound(rolls, n, 1, y, i + 1);
        ConsiderSound(rolls, n, x, y, i, s2, PlaceX);
        s3 := Consider(s2, FindMinimum(rolls, n, 1, y, i + 1), PlaceX);
      }
      var s4 := s3;
      if roll == 6 && y == 0 && 1 != x {
        FindMinimumSound(rolls, n, x, 1, i + 1);
        ConsiderSound(rolls, n, x, y, i, s3, PlaceY);
        s4 := Consider(s3, FindMinimum(rolls, n, x, 1, i + 1), PlaceY);
      }
      assert s4 == FindMinimum(rolls, n, x, y, i);
    }
  }

  /** A search result from `(x, y)` at roll `i` is finite only with a plan
      of exactly that many steps that finishes the game. */
  ghost predicate Sound(rolls: seq<int>, n: int, x: int, y: int, i: nat, r: Search)
  {
    r.count.Fin? ==> |r.steps| == r.count.n && Reaches(rolls, n, x, y, i, r.steps)
  }

  /** Considering an allowed step with a sound child result keeps the best
      result so far sound. */
  lemma ConsiderSound(rolls: seq<int>, n: int, x: int, y: int, i: nat, best: Search, s: Step)
    requires !(x == n && y == n) && i < |rolls| && Allowed(rolls[i], n, x, y, s)
    requires Sound(rolls, n, x, y, i, best)
    requires Sound(rolls, n, Next(x, y, s).0, Next(x, y, s).1, i + 1,
                   FindMinimum(rolls, n, Next(x, y, s).0, Next(x, y, s).1, i + 1))
    ensures Sound(rolls, n, x, y, i, Consider(best, FindMinimum(rolls, n, Next(x, y, s).0, Next(x, y, s).1, i + 1), s))
  {
    var c := FindMinimum(rolls, n, Next(x, y, s).0, Next(x, y, s).1, i + 1);
    assert ([s] + c.steps)[1..] == c.steps;
  }

  /** Each allowed step bounds the result by one more than the result after
      it. */
  lemma StepBound(rolls: seq<int>, n: int, x: int, y: int, i: nat, s: Step)
    requires !(x == n && y == n) && i < |rolls| && Allowed(rolls[i], n, x, y, s)
    ensures AtMost(FindMinimum(rolls, n, x, y, i).count,
                   Succ(FindMinimum(rolls, n, Next(x, y, s).0, Next(x, y, s).1, i + 1).count))
  {
  }

  /** Optimality: no plan is shorter than the result, so the result is the
      minimum number of moves, and infinite only if no plan exists. */
  lemma {:induction false} FindMinimumOptimal(rolls: seq<int>, n: int, x: int, y: int, i: nat, plan: seq<Step>)
    requires Reaches(rolls, n, x, y, i, plan)
    ensures FindMinimum(rolls, n, x, y, i).count.Fin?
    ensures FindMinimum(rolls, n, x, y, i).count.n <= |plan|
    decreases |plan|
  {
    if plan != [] {
      var s := plan[0];
      var (x', y') := Next(x, y, s);
      FindMinimumOptimal(rolls, n, x', y', i + 1, plan[1..]);
      StepBound(rolls, n, x, y, i, s);
    }
  }

  /** Every step consumes a roll, so a finite count from index `i` is at
      most the number of rolls left. */
  lemma CountBound(rolls: seq<int>, n: int, x: int, y: int, i: nat)
    ensures FindMinimum(rolls, n, x, y, i).count.Fin? ==>
      FindMinimum(rolls, n, x, y, i).count.n == 0 || FindMinimum(rolls, n, x, y, i).count.n <= |rolls| - i
  {
    FindMinimumSound(rolls, n, x, y, i);
    var r := FindMinimum(rolls, n, x, y, i);
    if r.count.Fin? {
      PlanLength(rolls, n, x, y, i, r.steps);
    }
  }

  /** The game is done without a roll exactly when both tokens are on the last field,
      checked before the index bound. */
  lemma BaseCases(rolls: seq<int>, n: int, x: int, y: int, i: nat)
    ensures x == n && y == n ==> FindMinimum(rolls, n, x, y, i) == Search(Fin(0), [])
    ensures FindMinimum(rolls, n, x, y, i).count == Fin(0) ==> x == n && y == n
    ensures !(x == n && y == n) && i >= |rolls| ==> FindMinimum(rolls, n, x, y, i).count == Inf
  {
    FindMinimumSound(rolls, n, x, y, i);
  }

  /** A token standing on the last field can pass: where the other token
      is in play and Y overshoots, the search may let Y stay put and still
      counts the roll. */
  lemma OvershootStillCounts(rolls: seq<int>, n: int, x: int, y: int, i: nat)
    requires !(x == n && y == n) && i < |rolls| && y != 0 && y + rolls[i] > n && y != x
    ensures AtMost(FindMinimum(rolls, n, x, y, i).count, Succ(FindMinimum(rolls, n, x, y, i + 1).count))
  {
    StepBound(rolls, n, x, y, i, MoveY(y, y));
  }

  /** From the start both tokens are home, so nothing moves without a 6. */
  lemma StartNeedsSix(rolls: seq<int>, n: int, i: nat)
    requires n != 0
    ensures FindMinimum(rolls, n, 0, 0, i).count.Fin? ==> i < |rolls| && rolls[i] == 6
  {
  }

  /** The memo holds only entries `find_minimum` would compute. */
  predicate MemoSound(rolls: seq<int>, n: int, memo: map<(int, int, nat), Search>)
  {
    forall k :: k in memo ==> memo[k] == FindMinimum(rolls, n, k.0, k.1, k.2)
  }

  /** `find_minimum` with its memo dictionary threaded through: it looks the
      state up after the base cases and stores the result before returning.
      Memoising does not change the value. */
  method FindMinimumMemo(rolls: seq<int>, n: int, x: int, y: int, i: nat, memo: map<(int, int, nat), Search>)
    returns (r: Search, memo': map<(int, int, nat), Search>)
    requires MemoSound(rolls, n, memo)
    ensures r == FindMinimum(rolls, n, x, y, i)
    ensures MemoSound(rolls, n, memo')
    decreases |rolls| - i
  {
    memo' := memo;
    if x == n && y == n {
      return Search(Fin(0), []), memo';
    }
    if i >= |rolls| {
      return Search(Inf, []), memo';
    }
    if (x, y, i) in memo' {
      return memo'[(x, y, i)], memo';
    }
    var roll := rolls[i];
    var nextRollIndex := i + 1;
    var best := Search(Inf, []);
    var child: Search;
    if x != 0 {
      var newX := Advance(x, roll, n);
      if newX != y || newX == n {
        child, memo' := FindMinimumMemo(rolls, n, newX, y, nextRollIndex, memo');
        if Less(Succ(child.count), best.count) {
          best := Search(Succ(child.count), [MoveX(x, newX)] + child.steps);
        }
      }
    }
    assert best == (var newX := Advance(x, roll, n);
      if x != 0 && (newX != y || newX == n)
      then Consider(Search(Inf, []), FindMinimum(rolls, n, newX, y, i + 1), MoveX(x, newX)) else Search(Inf, []));
    ghost var s1 := best;
    if y != 0 {
      var newY := Advance(y, roll, n);
      if newY != x || newY == n {
        child, memo' := FindMinimumMemo(rolls, n, x, newY, nextRollIndex, memo');
        if Less(Succ(child.count), best.count) {
          best := Search(Succ(child.count), [MoveY(y, newY)] + child.steps);
        }
      }
    }
    assert best == (var newY := Advance(y, roll, n);
      if y != 0 && (newY != x || newY == n)
      then Consider(s1, FindMinimum(rolls, n, x, newY, i + 1), MoveY(y, newY)) else s1);
    ghost var s2 := best;
    if roll == 6 {
      if x == 0 && y != 1 {
        child, memo' := FindMinimumMemo(rolls, n, 1, y, nextRollIndex, memo');
        if Less(Succ(child.count), best.count) {
          best := Search(Succ(child.count), [PlaceX] + child.steps);
        }
      }
      assert best == if x == 0 && y != 1 then Consider(s2, FindMinimum(rolls, n, 1, y, i + 1), PlaceX) else s2;
      ghost var s3 := best;
      if y == 0 && 1 != x {
        child, memo' := FindMinimumMemo(rolls, n, x, 1, nextRollIndex, memo');
        if Less(Succ(child.count), best.count) {
          best := Search(Succ(child.count), [PlaceY] + child.steps);
        }
      }
      assert best == if y == 0 && 1 != x then Consider(s3, FindMinimum(rolls, n, x, 1, i + 1), PlaceY) else s3;
    }
    memo' := memo'[(x, y, i) := best];
    r := best;
  }

  /** The result of `_check_sequence`: False, or the pair `(True, count)`
      (the source's `min_move_count != -1` is always true). */
  datatype Verdict = Unsolvable | Solvable(flag: bool, count: nat)

  /** `_check_sequence`: runs the search from both tokens at home with a
      fresh memo. */
  method CheckSequence(n: int, rolls: seq<int>) returns (v: Verdict)
    ensures v == Unsolvable <==> FindMinimum(rolls, n, 0, 0, 0).count == Inf
    ensures v.Solvable? ==> v.flag && Fin(v.count) == FindMinimum(rolls, n, 0, 0, 0).count
  {
    var memo: map<(int, int, nat), Search> := map[];
    var r, _ := FindMinimumMemo(rolls, n, 0, 0, 0, memo);
    if r.count == Inf {
      return Unsolvable;
    }
    return Solvable(r.count.n != -1, r.count.n);
  }

  /** `_check_sequence` says "solvable" exactly when some plan finishes the
      game within the rolls, and reports the length of a shortest one. */
  lemma CheckSequenceMeaning(n: int, rolls: seq<int>, plan: seq<Step>)
    ensures Reaches(rolls, n, 0, 0, 0, plan) ==>
      FindMinimum(rolls, n, 0, 0, 0).count.Fin? && FindMinimum(rolls, n, 0, 0, 0).count.n <= |plan|
    ensures FindMinimum(rolls, n, 0, 0, 0).count.Fin? ==> Reaches(rolls, n, 0, 0, 0, FindMinimum(rolls, n, 0, 0, 0).steps)
  {
    if Reaches(rolls, n, 0, 0, 0, plan) {
      FindMinimumOptimal(rolls, n, 0, 0, 0, plan);
    }
    FindMinimumSound(rolls, n, 0, 0, 0);
  }

  // ---------------------------------------------------------------------
  // _check_monotoken_sequence.find_minimum (one token)
  // ---------------------------------------------------------------------

  /** `find_minimum(position, idx)` of the one-token search. An advance is
      explored only when it lands exactly on the last field. */
  function FindMinimumMono(rolls: seq<int>, n: int, p: int, i: nat): Search
    decreases |rolls| - i
  {
    if p == n then Search(Fin(0), [])
    else if i >= |rolls| then Search(Inf, [])
    else
      var roll := rolls[i];
      var s0 := Search(Inf, []);
      var next := Advance(p, roll, n);
      var s1 := if p != 0 && next == n
        then Consider(s0, FindMinimumMono(rolls, n, next, i + 1), MoveX(p, next)) else s0;
      var s2 := if roll == 6 && p == 0
        then Consider(s1, FindMinimumMono(rolls, n, 1, i + 1), PlaceX) else s1;
      s2
  }

  /** From an in-play field short of the end, the one-token search succeeds
      iff the current roll lands exactly on the last field, in one move. */
  lemma MonoInPlay(rolls: seq<int>, n: int, p: int, i: nat)
    requires p != 0 && p != n && i < |rolls|
    ensures FindMinimumMono(rolls, n, p, i).count.Fin? <==> rolls[i] == n - p
    ensures rolls[i] == n - p ==> FindMinimumMono(rolls, n, p, i) == Search(Fin(1), [MoveX(p, n)])
  {
  }

  /** From home the only move is a 6 onto field 1. */
  lemma MonoFromHome(rolls: seq<int>, n: int, i: nat)
    requires n != 0 && i < |rolls|
    ensures rolls[i] != 6 ==> FindMinimumMono(rolls, n, 0, i).count == Inf
    ensures rolls[i] == 6 ==> FindMinimumMono(rolls, n, 0, i).count == Succ(FindMinimumMono(rolls, n, 1, i + 1).count)
  {
  }

  /** On a board of more than 7 fields no sequence of die rolls can be
      finished by one token: after entering on field 1 it needs a single
      roll of n - 1 > 6. */
  lemma MonoUnsolvable(rolls: seq<int>, n: int, i: nat)
    requires n > 7
    requires forall k :: 0 <= k < |rolls| ==> 1 <= rolls[k] <= 6
    ensures FindMinimumMono(rolls, n, 0, i).count == Inf
  {
    if i < |rolls| {
      if i + 1 < |rolls| {
        MonoInPlay(rolls, n, 1, i + 1);
      }
      MonoFromHome(rolls, n, i);
    }
  }

  predicate MonoMemoSound(rolls: seq<int>, n: int, memo: map<(int, nat), Search>)
  {
    forall k :: k in memo ==> memo[k] == FindMinimumMono(rolls, n, k.0, k.1)
  }

  /** The one-token `find_minimum` with its memo dictionary. */
  method FindMinimumMonoMemo(rolls: seq<int>, n: int, p: int, i: nat, memo: map<(int, nat), Search>)
    returns (r: Search, memo': map<(int, nat), Search>)
    requires MonoMemoSound(rolls, n, memo)
    ensures r == FindMinimumMono(rolls, n, p, i)
    ensures MonoMemoSound(rolls, n, memo')
    decreases |rolls| - i
  {
    memo' := memo;
    if p == n {
      return Search(Fin(0), []), memo';
    }
    if i >= |rolls| {
      return Search(Inf, []), memo';
    }
    if (p, i) in memo' {
      return memo'[(p, i)], memo';
    }
    var roll := rolls[i];
    var nextIdx := i + 1;
    var best := Search(Inf, []);
    var child: Search;
    if p != 0 {
      var next := if p + roll <= n then p + roll else p;
      if next == n {
        child, memo' := FindMinimumMonoMemo(rolls, n, next, nextIdx, memo');
        if Less(Succ(child.count), best.count) {
          best := Search(Succ(child.count), [MoveX(p, next)] + child.steps);
        }
      }
    }
    ghost var s1 := best;
    if roll == 6 {
      if p == 0 {
        child, memo' := FindMinimumMonoMemo(rolls, n, 1, nextIdx, memo');
        if Less(Succ(child.count), best.count) {
          best := Search(Succ(child.count), [PlaceX] + child.steps);
        }
      }
    }
    memo' := memo'[(p, i) := best];
    r := best;
  }

  /** `_check_monotoken_sequence`. */
  method CheckMonotokenSequence(n: int, rolls: seq<int>) returns (v: Verdict)
    ensures v == Unsolvable <==> FindMinimumMono(rolls, n, 0, 0).count == Inf
    ensures v.Solvable? ==> v.flag && Fin(v.count) == FindMinimumMono(rolls, n, 0, 0).count
  {
    var memo: map<(int, nat), Search> := map[];
    var r, _ := FindMinimumMonoMemo(rolls, n, 0, 0, memo);
    if r.count == Inf {
      return Unsolvable;
    }
    return Solvable(r.count.n != -1, r.count.n);
  }

  // ---------------------------------------------------------------------
  // _generate_rolls
  // ---------------------------------------------------------------------

  /** `[(a, b) for a, b in zip(p1, p2)]`: zip stops at the shorter list. */
  function PairRolls(p1: seq<int>, p2: seq<int>): (rolls: seq<Roll>)
    ensures |rolls| == if |p1| < |p2| then |p1| else |p2|
    ensures forall k :: 0 <= k < |rolls| ==> rolls[k] == Pair(p1[k], p2[k])
  {
    if p1 == [] || p2 == [] then [] else [Pair(p1[0], p2[0])] + PairRolls(p1[1..], p2[1..])
  }

  /** The two players' rolls, read back from the pairs. */
  function Firsts(rolls: seq<Roll>): (r: seq<int>)
    requires forall k :: 0 <= k < |rolls| ==> rolls[k].Pair?
    ensures |r| == |rolls|
  {
    if rolls == [] then [] else [rolls[0].first] + Firsts(rolls[1..])
  }

  function Seconds(rolls: seq<Roll>): (r: seq<int>)
    requires forall k :: 0 <= k < |rolls| ==> rolls[k].Pair?
    ensures |r| == |rolls|
  {
    if rolls == [] then [] else [rolls[0].second] + Seconds(rolls[1..])
  }

  /** Unzipping the pairs gives back both sequences (of equal length). */
  lemma {:induction false} PairRollsUnzip(p1: seq<int>, p2: seq<int>)
    requires |p1| == |p2|
    ensures Firsts(PairRolls(p1, p2)) == p1 && Seconds(PairRolls(p1, p2)) == p2
  {
    if p1 != [] {
      PairRollsUnzip(p1[1..], p2[1..]);
    }
  }

  /** `_generate_rolls` with the sampled sequences passed in; the source only
      binds `rolls` for one or two dialogue partners. */
  function GenerateRolls(partners: nat, p1: seq<int>, p2: seq<int>): (rolls: seq<Roll>)
    requires partners == 1 || partners == 2
    ensures partners == 1 ==> |rolls| == |p1| && forall k :: 0 <= k < |rolls| ==> rolls[k] == Single(p1[k])
    ensures partners == 2 && |p1| == |p2| ==>
      |rolls| == |p1| && forall k :: 0 <= k < |rolls| ==> rolls[k] == Pair(p1[k], p2[k])
  {
    if partners == 1 then Singles(p1) else PairRolls(p1, p2)
  }

  function Singles(p1: seq<int>): (rolls: seq<Roll>)
    ensures |rolls| == |p1| && forall k :: 0 <= k < |rolls| ==> rolls[k] == Single(p1[k])
  {
    if p1 == [] then [] else [Single(p1[0])] + Singles(p1[1..])
  }
}

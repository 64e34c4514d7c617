/** The game simulator the programmatic opponent searches with, and its
    alpha-beta search (games/ludo/minimax.py). */
module Minimax {
  import opened Common

  /** An integer score, or one of the infinities `float('-inf')` and
      `float('inf')` that the search starts from. */
  datatype XInt = NegInf | Int(v: int) | PosInf

  predicate Lt(a: XInt, b: XInt)
  {
    match (a, b)
    case (NegInf, NegInf) => false
    case (NegInf, _) => true
    case (Int(x), Int(y)) => x < y
    case (Int(_), PosInf) => true
    case _ => false
  }

  predicate Le(a: XInt, b: XInt)
  {
    a == b || Lt(a, b)
  }

  function Max(a: XInt, b: XInt): (r: XInt)
    ensures Le(a, r) && Le(b, r) && (r == a || r == b)
  {
    if Lt(a, b) then b else a
  }

  function Min(a: XInt, b: XInt): (r: XInt)
    ensures Le(r, a) && Le(r, b) && (r == a || r == b)
  {
    if Lt(b, a) then b else a
  }

  /** A move `(token, destination)`. */
  datatype SimMove = SimMove(token: string, dest: int)

  /** A `GameSim` state. `rolls[turn]` holds the roll of player 0 and of
      player 1 for that turn. */
  datatype GameSim = GameSim(
    nFields: int,
    nTokens: int,
    positions: map<string, int>,
    rolls: seq<(int, int)>,
    turn: nat)

  /** `_get_tokens`: player 1 has A (and B), anyone else X (and Y). For any
      other token count the source returns None, which it cannot iterate. */
  function Tokens(nTokens: int, player: int): (ts: seq<string>)
    requires nTokens == 1 || nTokens == 2
    ensures |ts| == nTokens
  {
    if nTokens == 1 then (if player == 1 then ["A"] else ["X"])
    else (if player == 1 then ["A", "B"] else ["X", "Y"])
  }

  /** The two players' token lists never share a name. */
  lemma TokensDisjoint(nTokens: int)
    requires nTokens == 1 || nTokens == 2
    ensures forall i, j :: 0 <= i < nTokens && 0 <= j < nTokens ==> Tokens(nTokens, 0)[i] != Tokens(nTokens, 1)[j]
    ensures forall i, j :: 0 <= i < j < nTokens ==> Tokens(nTokens, 0)[i] != Tokens(nTokens, 0)[j]
    ensures forall i, j :: 0 <= i < j < nTokens ==> Tokens(nTokens, 1)[i] != Tokens(nTokens, 1)[j]
  {
  }

  /** Every token of both players has a position (else a KeyError). */
  predicate Valid(s: GameSim)
  {
    (s.nTokens == 1 || s.nTokens == 2) &&
    AllIn(s, Tokens(s.nTokens, 0)) && AllIn(s, Tokens(s.nTokens, 1))
  }

  predicate AllIn(s: GameSim, ts: seq<string>)
  {
    forall j :: 0 <= j < |ts| ==> ts[j] in s.positions
  }

  // ---------------------------------------------------------------------
  // _is_out, _is_taken
  // ---------------------------------------------------------------------

  /** `_is_out`. */
  predicate IsOut(s: GameSim, t: string)
    requires t in s.positions
  {
    s.positions[t] > 0
  }

  /** What `_is_taken` decides: one of `ts` stands on `pos`, and `pos` is not
      the last field. */
  predicate Taken(s: GameSim, ts: seq<string>, pos: int)
    requires AllIn(s, ts)
  {
    pos != s.nFields && exists j :: 0 <= j < |ts| && s.positions[ts[j]] == pos
  }

  /** `_is_taken`, with its loop and early return. */
  method IsTaken(s: GameSim, ts: seq<string>, pos: int) returns (b: bool)
    requires AllIn(s, ts)
    ensures b == Taken(s, ts, pos)
  {
    for j := 0 to |ts|
      invariant forall q :: 0 <= q < j ==> !(s.positions[ts[q]] == pos && pos != s.nFields)
    {
      if s.positions[ts[j]] == pos && pos != s.nFields {
        return true;
      }
    }
    return false;
  }

  // ---------------------------------------------------------------------
  // get_possible_moves
  // ---------------------------------------------------------------------

  /** The roll of `player` (0 or 1) in the current turn. */
  function RollFor(s: GameSim, player: int): int
    requires s.turn < |s.rolls| && (player == 0 || player == 1)
  {
    if player == 0 then s.rolls[s.turn].0 else s.rolls[s.turn].1
  }

  /** A token out of base advances by the roll onto a field of the board
      that no own token blocks. */
  predicate AdvanceKind(s: GameSim, own: seq<string>, roll: int, m: SimMove)
    requires AllIn(s, own) && m.token in s.positions
  {
    IsOut(s, m.token) && m.dest == s.positions[m.token] + roll && m.dest <= s.nFields && !Taken(s, own, m.dest)
  }

  /** A token in base enters on field 1 with a 6 if no own token blocks it. */
  predicate EnterKind(s: GameSim, own: seq<string>, roll: int, m: SimMove)
    requires AllIn(s, own) && m.token in s.positions
  {
    roll == 6 && s.positions[m.token] == 0 && m.dest == 1 && !Taken(s, own, 1)
  }

  /** The two `moves.append` of the loop over the tokens `ts`, in order. */
  function Candidates(s: GameSim, own: seq<string>, ts: seq<string>, roll: int): seq<SimMove>
    requires AllIn(s, own) && AllIn(s, ts)
  {
    if ts == [] then []
    else
      var prev := Candidates(s, own, ts[..|ts| - 1], roll);
      var t := ts[|ts| - 1];
      var pos := s.positions[t];
      var dest := pos + roll;
      var a := if !Taken(s, own, dest) && dest <= s.nFields && IsOut(s, t) then [SimMove(t, dest)] else [];
      var b := if roll == 6 && pos == 0 && !Taken(s, own, 1) then [SimMove(t, 1)] else [];
      prev + a + b
  }

  /** One more token adds its advance, then its entry, to the candidates. */
  lemma CandidatesStep(s: GameSim, own: seq<string>, ts: seq<string>, roll: int, k: nat)
    requires AllIn(s, own) && AllIn(s, ts) && k < |ts|
    ensures AllIn(s, ts[..k]) && AllIn(s, ts[..k + 1])
    ensures var t := ts[k];
      var dest := s.positions[t] + roll;
      Candidates(s, own, ts[..k + 1], roll) ==
        Candidates(s, own, ts[..k], roll) +
        (if !Taken(s, own, dest) && dest <= s.nFields && IsOut(s, t) then [SimMove(t, dest)] else []) +
        (if roll == 6 && s.positions[t] == 0 && !Taken(s, own, 1) then [SimMove(t, 1)] else [])
  {
    assert ts[..k + 1][..k] == ts[..k];
  }

  /** The candidates are exactly the advances and entries of the tokens. */
  lemma {:induction false} CandidatesIff(s: GameSim, own: seq<string>, ts: seq<string>, roll: int, m: SimMove)
    requires AllIn(s, own) && AllIn(s, ts)
    ensures m in Candidates(s, own, ts, roll) <==>
      m.token in ts && m.token in s.positions && (AdvanceKind(s, own, roll, m) || EnterKind(s, own, roll, m))
  {
    if ts != [] {
      var init := ts[..|ts| - 1];
      assert AllIn(s, init);
      CandidatesIff(s, own, init, roll, m);
      assert ts == init + [ts[|ts| - 1]];
      assert m.token in ts <==> m.token in init || m.token == ts[|ts| - 1];
    }
  }

  /** The null moves used when nothing qualifies: every token stays. */
  function Fallback(s: GameSim, ts: seq<string>): (moves: seq<SimMove>)
    requires AllIn(s, ts)
    ensures |moves| == |ts|
    ensures forall j :: 0 <= j < |ts| ==> moves[j] == SimMove(ts[j], s.positions[ts[j]])
  {
    if ts == [] then [] else Fallback(s, ts[..|ts| - 1]) + [SimMove(ts[|ts| - 1], s.positions[ts[|ts| - 1]])]
  }

  /** `get_possible_moves(player)`. */
  function PossibleMoves(s: GameSim, player: int): seq<SimMove>
    requires Valid(s) && s.turn < |s.rolls| && (player == 0 || player == 1)
  {
    var own := Tokens(s.nTokens, player);
    var c := Candidates(s, own, own, RollFor(s, player));
    if c == [] then Fallback(s, own) else c
  }

  /** The moves are never empty; each is an advance or an entry of an own
      token, unless none exists, in which case every own token "moves" to
      where it already is. */
  lemma PossibleMovesShape(s: GameSim, player: int)
    requires Valid(s) && s.turn < |s.rolls| && (player == 0 || player == 1)
    ensures var moves := PossibleMoves(s, player);
      var own := Tokens(s.nTokens, player);
      |moves| > 0 &&
      (forall m :: m in moves ==> m.token in own) &&
      ((forall m :: m in moves ==> AdvanceKind(s, own, RollFor(s, player), m) || EnterKind(s, own, RollFor(s, player), m)) ||
       moves == Fallback(s, own))
  {
    var own := Tokens(s.nTokens, player);
    var roll := RollFor(s, player);
    var c := Candidates(s, own, own, roll);
    forall m | m in c ensures m.token in own && (AdvanceKind(s, own, roll, m) || EnterKind(s, own, roll, m)) {
      CandidatesIff(s, own, own, roll, m);
    }
    if c == [] {
      assert Fallback(s, own)[0] in Fallback(s, own);
    }
  }

  /** Every qualifying advance or entry is offered. */
  lemma PossibleMovesComplete(s: GameSim, player: int, m: SimMove)
    requires Valid(s) && s.turn < |s.rolls| && (player == 0 || player == 1)
    requires m.token in Tokens(s.nTokens, player)
    requires AdvanceKind(s, Tokens(s.nTokens, player), RollFor(s, player), m) ||
             EnterKind(s, Tokens(s.nTokens, player), RollFor(s, player), m)
    ensures m in PossibleMoves(s, player)
  {
    var own := Tokens(s.nTokens, player);
    CandidatesIff(s, own, own, RollFor(s, player), m);
  }

  /** `get_possible_moves`, with its loops and appends. */
  method GetPossibleMoves(s: GameSim, player: int) returns (moves: seq<SimMove>)
    requires Valid(s) && s.turn < |s.rolls| && (player == 0 || player == 1)
    ensures moves == PossibleMoves(s, player)
  {
    var roll := RollFor(s, player);
    var tokens := Tokens(s.nTokens, player);
    moves := CollectCandidates(s, tokens, roll);
    if moves == [] {
      moves := CollectFallback(s, tokens);
    }
  }

  /** The first loop of `get_possible_moves`: for each token in order, its
      advance and then its entry, where they qualify. */
  method CollectCandidates(s: GameSim, tokens: seq<string>, roll: int) returns (moves: seq<SimMove>)
    requires AllIn(s, tokens)
    ensures moves == Candidates(s, tokens, tokens, roll)
  {
    moves := [];
    for k := 0 to |tokens|
      invariant AllIn(s, tokens[..k])
      invariant moves == Candidates(s, tokens, tokens[..k], roll)
    {
      CandidatesStep(s, tokens, tokens, roll, k);
      var token := tokens[k];
      var destination := s.positions[token] + roll;
      var taken := IsTaken(s, tokens, destination);
      if !taken && destination <= s.nFields && s.positions[token] > 0 {
        moves := moves + [SimMove(token, destination)];
      }
      var takenOne := IsTaken(s, tokens, 1);
      if roll == 6 && s.positions[token] == 0 && !takenOne {
        moves := moves + [SimMove(token, 1)];
      }
    }
    assert tokens[..|tokens|] == tokens;
  }

  /** The second loop of `get_possible_moves`: a null move per token. */
  method CollectFallback(s: GameSim, tokens: seq<string>) returns (moves: seq<SimMove>)
    requires AllIn(s, tokens)
    ensures moves == Fallback(s, tokens)
  {
    moves := [];
    for k := 0 to |tokens|
      invariant AllIn(s, tokens[..k])
      invariant moves == Fallback(s, tokens[..k])
    {
      assert tokens[..k + 1][..k] == tokens[..k];
      moves := moves + [SimMove(tokens[k], s.positions[tokens[k]])];
    }
    assert tokens[..|tokens|] == tokens;
  }

  // ---------------------------------------------------------------------
  // get_new_state
  // ---------------------------------------------------------------------

  /** The loop over the opponent's tokens: each one standing on `dest`
      goes back to base, unless `dest` is the last field. */
  function Capture(positions: map<string, int>, opp: seq<string>, dest: int, n: int): (r: map<string, int>)
    requires forall j :: 0 <= j < |opp| ==> opp[j] in positions
    ensures r.Keys == positions.Keys
  {
    if opp == [] then positions
    else
      var q := Capture(positions, opp[..|opp| - 1], dest, n);
      var t := opp[|opp| - 1];
      if q[t] == dest && dest != n then q[t := 0] else q
  }

  lemma {:induction false} CaptureAt(positions: map<string, int>, opp: seq<string>, dest: int, n: int)
    requires forall j :: 0 <= j < |opp| ==> opp[j] in positions
    requires forall i, j :: 0 <= i < j < |opp| ==> opp[i] != opp[j]
    ensures Capture(positions, opp, dest, n).Keys == positions.Keys
    ensures forall j :: 0 <= j < |opp| ==>
      Capture(positions, opp, dest, n)[opp[j]] == (if positions[opp[j]] == dest && dest != n then 0 else positions[opp[j]])
    ensures forall t :: t in positions && t !in opp ==> Capture(positions, opp, dest, n)[t] == positions[t]
  {
    if opp != [] {
      var init := opp[..|opp| - 1];
      CaptureAt(positions, init, dest, n);
      assert forall j :: 0 <= j < |init| ==> init[j] == opp[j];
      assert forall t :: t in opp ==> t in init || t == opp[|opp| - 1];
    }
  }

  /** `get_new_state(move, player)`. */
  function NewState(s: GameSim, move: SimMove, player: int): (r: GameSim)
    requires Valid(s)
    ensures Valid(r) && r.rolls == s.rolls
    ensures r.turn == if player == 1 then s.turn + 1 else s.turn
  {
    var opp := Tokens(s.nTokens, 1 - player);
    GameSim(s.nFields, s.nTokens, Capture(s.positions[move.token := move.dest], opp, move.dest, s.nFields),
            s.rolls, if player == 1 then s.turn + 1 else s.turn)
  }

  /** The mover's token goes to the destination, an opponent token there is
      sent home unless the destination is the last field, and nothing else
      changes; the turn advances only after player 1's move. The state the
      move is made on is a value and stays as it was. */
  lemma NewStateEffect(s: GameSim, move: SimMove, player: int)
    requires Valid(s) && (player == 0 || player == 1) && move.token in Tokens(s.nTokens, player)
    ensures var r := NewState(s, move, player);
      var opp := Tokens(s.nTokens, 1 - player);
      && Valid(r)
      && r.nFields == s.nFields && r.nTokens == s.nTokens && r.rolls == s.rolls
      && r.turn == (if player == 1 then s.turn + 1 else s.turn)
      && r.positions.Keys == s.positions.Keys
      && r.positions[move.token] == move.dest
      && (forall j :: 0 <= j < |opp| ==>
            r.positions[opp[j]] == (if s.positions[opp[j]] == move.dest && move.dest != s.nFields then 0 else s.positions[opp[j]]))
      && (forall t :: t in s.positions && t != move.token && t !in opp ==> r.positions[t] == s.positions[t])
  {
    var opp := Tokens(s.nTokens, 1 - player);
    TokensDisjoint(s.nTokens);
    var p := s.positions[move.token := move.dest];
    CaptureAt(p, opp, move.dest, s.nFields);
    assert move.token !in opp;
  }

  /** `get_new_state`, with its loop over the opponent's tokens. */
  method GetNewState(s: GameSim, move: SimMove, player: int) returns (r: GameSim)
    requires Valid(s)
    ensures r == NewState(s, move, player)
  {
    var newPositions := s.positions[move.token := move.dest];
    var opp := Tokens(s.nTokens, 1 - player);
    for k := 0 to |opp|
      invariant newPositions == Capture(s.positions[move.token := move.dest], opp[..k], move.dest, s.nFields)
    {
      assert opp[..k + 1][..k] == opp[..k];
      if newPositions[opp[k]] == move.dest && move.dest != s.nFields {
        newPositions := newPositions[opp[k] := 0];
      }
    }
    assert opp[..|opp|] == opp;
    r := GameSim(s.nFields, s.nTokens, newPositions, s.rolls, if player == 1 then s.turn + 1 else s.turn);
  }

  // ---------------------------------------------------------------------
  // is_terminal, score
  // ---------------------------------------------------------------------

  predicate AllHome(s: GameSim, ts: seq<string>)
    requires AllIn(s, ts)
  {
    forall j :: 0 <= j < |ts| ==> s.positions[ts[j]] == s.nFields
  }

  /** `is_terminal`: both flags are computed from player 0's tokens, so the
      winner, when there is one, is always 0. */
  function IsTerminal(s: GameSim): (bool, Option<int>)
    requires Valid(s)
  {
    var p1 := AllHome(s, Tokens(s.nTokens, 0));
    var p2 := AllHome(s, Tokens(s.nTokens, 0));
    var winner := if p1 then Some(0) else if p2 then Some(1) else None;
    (p1 || p2, winner)
  }

  /** The state is terminal exactly when player 0 has every token on the
      last field, and then player 0 is the winner; player 1 never is. */
  lemma TerminalMeaning(s: GameSim)
    requires Valid(s)
    ensures IsTerminal(s).0 <==> AllHome(s, Tokens(s.nTokens, 0))
    ensures IsTerminal(s).0 <==> IsTerminal(s).1 == Some(0)
    ensures IsTerminal(s).1 != Some(1)
  {
  }

  function SumPositions(s: GameSim, ts: seq<string>): int
    requires AllIn(s, ts)
  {
    if ts == [] then 0 else SumPositions(s, ts[..|ts| - 1]) + s.positions[ts[|ts| - 1]]
  }

  /** Python truthiness of the winner: None and 0 are false. */
  predicate Truthy(w: Option<int>)
  {
    w.Some? && w.value != 0
  }

  /** `score`. */
  function Score(s: GameSim): int
    requires Valid(s)
  {
    var (terminal, winner) := IsTerminal(s);
    if terminal then (if Truthy(winner) then -100 else 100)
    else SumPositions(s, Tokens(s.nTokens, 0)) - SumPositions(s, Tokens(s.nTokens, 1))
  }

  /** A terminal state scores 100 (the -100 branch cannot be taken); any
      other state scores player 0's progress minus player 1's. */
  lemma ScoreMeaning(s: GameSim)
    requires Valid(s)
    ensures
      if AllHome(s, Tokens(s.nTokens, 0)) then Score(s) == 100
      else Score(s) == SumPositions(s, Tokens(s.nTokens, 0)) - SumPositions(s, Tokens(s.nTokens, 1))
  {
    TerminalMeaning(s);
  }

  // ---------------------------------------------------------------------
  // minimax
  // ---------------------------------------------------------------------

  /** The search stops at a terminal state or once the rolls run out. */
  predicate Stops(s: GameSim)
    requires Valid(s)
  {
    IsTerminal(s).0 || s.turn > |s.rolls| - 1
  }

  /** Two plies per turn: the maximiser's move advances the turn, the
      minimiser's does not. */
  function Measure(s: GameSim, maximizing: bool): nat
  {
    if s.turn < |s.rolls| then 2 * (|s.rolls| - s.turn) + (if maximizing then 0 else 1) else 0
  }

  function PlayerOf(maximizing: bool): int
  {
    if maximizing then 1 else 0
  }

  /** `minimax(game_state, maximizing_player, alpha, beta)`: the score and
      the move chosen. */
  function MinimaxValue(s: GameSim, maximizing: bool, alpha: XInt, beta: XInt): (XInt, Option<SimMove>)
    requires Valid(s)
    decreases Measure(s, maximizing), 1, 0
  {
    if Stops(s) then (Int(Score(s)), None)
    else
      var moves := PossibleMoves(s, PlayerOf(maximizing));
      if maximizing then MaxLoop(s, moves, 0, alpha, beta, NegInf, None)
      else MinLoop(s, moves, 0, alpha, beta, PosInf, None)
  }

  /** The maximiser's loop from the `k`-th move on. */
  function MaxLoop(s: GameSim, moves: seq<SimMove>, k: nat, alpha: XInt, beta: XInt, best: XInt, bestMove: Option<SimMove>)
    : (XInt, Option<SimMove>)
    requires Valid(s) && s.turn < |s.rolls| && k <= |moves|
    decreases Measure(s, true), 0, |moves| - k
  {
    if k == |moves| then (best, bestMove)
    else
      var child := NewState(s, moves[k], 1);
      var score := MinimaxValue(child, false, alpha, beta).0;
      var b := if Lt(best, score) then score else best;
      var m := if Lt(best, score) then Some(moves[k]) else bestMove;
      if Le(beta, b) then (b, m)
      else MaxLoop(s, moves, k + 1, Max(alpha, b), beta, b, m)
  }

  /** The minimiser's loop: it stops at the first best score `<= beta`, and
      otherwise sets `beta` to `min(alpha, best)`. */
  function MinLoop(s: GameSim, moves: seq<SimMove>, k: nat, alpha: XInt, beta: XInt, best: XInt, bestMove: Option<SimMove>)
    : (XInt, Option<SimMove>)
    requires Valid(s) && s.turn < |s.rolls| && k <= |moves|
    decreases Measure(s, false), 0, |moves| - k
  {
    if k == |moves| then (best, bestMove)
    else
      var child := NewState(s, moves[k], 0);
      var score := MinimaxValue(child, true, alpha, beta).0;
      var b := if Lt(score, best) then score else best;
      var m := if Lt(score, best) then Some(moves[k]) else bestMove;
      if Le(b, beta) then (b, m)
      else MinLoop(s, moves, k + 1, alpha, Min(alpha, b), b, m)
  }

  /** The score is always a number, and outside the stopping states the move
      is one of `get_possible_moves`. */
  lemma {:induction false} MinimaxShape(s: GameSim, maximizing: bool, alpha: XInt, beta: XInt)
    requires Valid(s)
    ensures MinimaxValue(s, maximizing, alpha, beta).0.Int?
    ensures Stops(s) ==> MinimaxValue(s, maximizing, alpha, beta) == (Int(Score(s)), None)
    ensures !Stops(s) ==>
      MinimaxValue(s, maximizing, alpha, beta).1.Some? &&
      MinimaxValue(s, maximizing, alpha, beta).1.value in PossibleMoves(s, PlayerOf(maximizing))
    decreases Measure(s, maximizing), 1, 0
  {
    if !Stops(s) {
      var moves := PossibleMoves(s, PlayerOf(maximizing));
      PossibleMovesShape(s, PlayerOf(maximizing));
      if maximizing {
        MaxLoopShape(s, moves, 0, alpha, beta, NegInf, None);
      } else {
        MinLoopShape(s, moves, 0, alpha, beta, PosInf, None);
      }
    }
  }

  lemma {:induction false} MaxLoopShape(s: GameSim, moves: seq<SimMove>, k: nat, alpha: XInt, beta: XInt, best: XInt, bestMove: Option<SimMove>)
    requires Valid(s) && s.turn < |s.rolls| && k <= |moves|
    requires (best.Int? && bestMove.Some? && bestMove.value in moves) || (best == NegInf && k < |moves|)
    ensures var r := MaxLoop(s, moves, k, alpha, beta, best, bestMove);
      r.0.Int? && r.1.Some? && r.1.value in moves
    decreases Measure(s, true), 0, |moves| - k
  {
    if k < |moves| {
      var child := NewState(s, moves[k], 1);
      MinimaxShape(child, false, alpha, beta);
      var score := MinimaxValue(child, false, alpha, beta).0;
      var b := if Lt(best, score) then score else best;
      var m := if Lt(best, score) then Some(moves[k]) else bestMove;
      if !Le(beta, b) {
        MaxLoopShape(s, moves, k + 1, Max(alpha, b), beta, b, m);
      }
    }
  }

  lemma {:induction false} MinLoopShape(s: GameSim, moves: seq<SimMove>, k: nat, alpha: XInt, beta: XInt, best: XInt, bestMove: Option<SimMove>)
    requires Valid(s) && s.turn < |s.rolls| && k <= |moves|
    requires (best.Int? && bestMove.Some? && bestMove.value in moves) || (best == PosInf && k < |moves|)
    ensures var r := MinLoop(s, moves, k, alpha, beta, best, bestMove);
      r.0.Int? && r.1.Some? && r.1.value in moves
    decreases Measure(s, false), 0, |moves| - k
  {
    if k < |moves| {
      var child := NewState(s, moves[k], 0);
      MinimaxShape(child, true, alpha, beta);
      var score := MinimaxValue(child, true, alpha, beta).0;
      var b := if Lt(score, best) then score else best;
      var m := if Lt(score, best) then Some(moves[k]) else bestMove;
      if !Le(b, beta) {
        MinLoopShape(s, moves, k + 1, alpha, Min(alpha, b), b, m);
      }
    }
  }

  /** With the default `beta = +inf` the minimiser stops after its first
      candidate: it returns that move and the score of the state after it. */
  lemma MinimizerFirstCandidate(s: GameSim, alpha: XInt)
    requires Valid(s) && !Stops(s)
    ensures var moves := PossibleMoves(s, 0);
      |moves| > 0 &&
      MinimaxValue(s, false, alpha, PosInf) ==
        (MinimaxValue(NewState(s, moves[0], 0), true, alpha, PosInf).0, Some(moves[0]))
  {
    var moves := PossibleMoves(s, 0);
    PossibleMovesShape(s, 0);
    MinimaxShape(NewState(s, moves[0], 0), true, alpha, PosInf);
  }

  /** `minimax`, recursive. The two for-loops are `MaxMoves` and
      `MinMoves`. */
  method MinimaxSearch(s: GameSim, maximizing: bool, alpha: XInt, beta: XInt) returns (score: XInt, move: Option<SimMove>)
    requires Valid(s)
    ensures (score, move) == MinimaxValue(s, maximizing, alpha, beta)
    decreases Measure(s, maximizing), 1, 0
  {
    var terminal := IsTerminal(s);
    if terminal.0 || s.turn > |s.rolls| - 1 {
      return Int(Score(s)), None;
    }
    var player := PlayerOf(maximizing);
    var possibleMoves := GetPossibleMoves(s, player);
    if maximizing {
      score, move := MaxMoves(s, possibleMoves, alpha, beta);
    } else {
      score, move := MinMoves(s, possibleMoves, alpha, beta);
    }
  }

  /** The maximiser's for-loop with its `break`. */
  method MaxMoves(s: GameSim, moves: seq<SimMove>, alpha0: XInt, beta: XInt) returns (best: XInt, bestMove: Option<SimMove>)
    requires Valid(s) && s.turn < |s.rolls|
    ensures (best, bestMove) == MaxLoop(s, moves, 0, alpha0, beta, NegInf, None)
    decreases Measure(s, true), 0, 0
  {
    var alpha := alpha0;
    best, bestMove := NegInf, None;
    var k := 0;
    while k < |moves|
      invariant 0 <= k <= |moves|
      invariant MaxLoop(s, moves, 0, alpha0, beta, NegInf, None) == MaxLoop(s, moves, k, alpha, beta, best, bestMove)
      decreases |moves| - k
    {
      var child := GetNewState(s, moves[k], 1);
      var childScore, _ := MinimaxSearch(child, false, alpha, beta);
      ghost var previous := (best, bestMove);
      if Lt(best, childScore) {
        best, bestMove := childScore, Some(moves[k]);
      }
      assert MaxLoop(s, moves, k, alpha, beta, previous.0, previous.1) ==
        if Le(beta, best) then (best, bestMove) else MaxLoop(s, moves, k + 1, Max(alpha, best), beta, best, bestMove);
      if Le(beta, best) {
        break;
      }
      alpha := Max(alpha, best);
      k := k + 1;
    }
  }

  /** The minimiser's for-loop with its `break`. */
  method MinMoves(s: GameSim, moves: seq<SimMove>, alpha: XInt, beta0: XInt) returns (best: XInt, bestMove: Option<SimMove>)
    requires Valid(s) && s.turn < |s.rolls|
    ensures (best, bestMove) == MinLoop(s, moves, 0, alpha, beta0, PosInf, None)
    decreases Measure(s, false), 0, 0
  {
    var beta := beta0;
    best, bestMove := PosInf, None;
    var k := 0;
    while k < |moves|
      invariant 0 <= k <= |moves|
      invariant MinLoop(s, moves, 0, alpha, beta0, PosInf, None) == MinLoop(s, moves, k, alpha, beta, best, bestMove)
      decreases |moves| - k
    {
      var child := GetNewState(s, moves[k], 0);
      var childScore, _ := MinimaxSearch(child, true, alpha, beta);
      ghost var previous := (best, bestMove);
      if Lt(childScore, best) {
        best, bestMove := childScore, Some(moves[k]);
      }
      assert MinLoop(s, moves, k, alpha, beta, previous.0, previous.1) ==
        if Le(best, beta) then (best, bestMove) else MinLoop(s, moves, k + 1, alpha, Min(alpha, best), best, bestMove);
      if Le(best, beta) {
        break;
      }
      beta := Min(alpha, best);
      k := k + 1;
    }
  }
}

/** The game master's move-legality checker, the step that applies an
    accepted move, and the game status (games/ludo/master.py). */
module Master {
  import opened Common
  import opened Player
  import Game

  /** Every key of the move names a token of the player; the source reads
      `tokens[token]` and raises a KeyError otherwise. */
  predicate KeysKnown(tokens: Tokens, move: Move)
  {
    forall i :: 0 <= i < |move| ==> move[i].token in tokens
  }

  // ---------------------------------------------------------------------
  // _check_token_moved, _check_both_tokens_moved, _get_moved_token
  // ---------------------------------------------------------------------

  /** `_check_token_moved`: for each key of the move, in order, whether its
      target differs from the token's current position. */
  function TokensMoved(tokens: Tokens, move: Move): (flags: seq<(string, bool)>)
    requires KeysKnown(tokens, move)
    ensures |flags| == |move|
    ensures forall i :: 0 <= i < |move| ==>
      flags[i].0 == move[i].token && (flags[i].1 <==> tokens[move[i].token].position != move[i].target)
  {
    if move == [] then []
    else
      var last := move[|move| - 1];
      TokensMoved(tokens, move[..|move| - 1]) + [(last.token, tokens[last.token].position != last.target)]
  }

  /** `_check_both_tokens_moved`: `all(...)` over the flags, so also true
      for an empty reply. */
  predicate BothTokensMoved(tokens: Tokens, move: Move)
    requires KeysKnown(tokens, move)
  {
    var flags := TokensMoved(tokens, move);
    forall i :: 0 <= i < |flags| ==> flags[i].1
  }

  /** The reply counts as a simultaneous move exactly when every token it
      names changes position; an empty reply does. */
  lemma BothMovedIffAllChange(tokens: Tokens, move: Move)
    requires KeysKnown(tokens, move)
    ensures BothTokensMoved(tokens, move) <==>
      forall i :: 0 <= i < |move| ==> tokens[move[i].token].position != move[i].target
    ensures move == [] ==> BothTokensMoved(tokens, move)
  {
    var flags := TokensMoved(tokens, move);
    assert forall i :: 0 <= i < |move| ==> (flags[i].1 <==> tokens[move[i].token].position != move[i].target);
  }

  /** What `_get_moved_token` returns: its loop returns on the first key
      either way, so only that key is ever looked at. */
  function MovedToken(flags: seq<(string, bool)>): Option<string>
  {
    if |flags| > 0 && flags[0].1 then Some(flags[0].0) else None
  }

  /** `_get_moved_token`. Both returns sit inside the loop body, so the
      loop stops after its first iteration; `done` records that. */
  method GetMovedToken(flags: seq<(string, bool)>) returns (r: Option<string>)
    ensures r == MovedToken(flags)
    ensures r.Some? ==> exists i :: 0 <= i < |flags| && flags[i] == (r.value, true)
  {
    r := None;
    var done := false;
    var i := 0;
    while i < |flags| && !done
      invariant i <= 1 && i <= |flags|
      invariant i == 0 ==> !done && r == None
      invariant i == 1 ==> done && r == MovedToken(flags)
    {
      if flags[i].1 {
        r := Some(flags[i].0);
      }
      done := true;
      i := i + 1;
    }
  }

  /** A token that moved after an unmoved first key is not reported. */
  lemma LaterMoveIgnored(flags: seq<(string, bool)>, k: nat)
    requires 0 < k < |flags| && flags[k].1 && !flags[0].1
    ensures MovedToken(flags) == None
  {
  }

  // ---------------------------------------------------------------------
  // _check_move
  // ---------------------------------------------------------------------

  /** The errors `_check_move` records in `self.error`. */
  datatype MoveError =
    | SimultaneousMove
    | NotMovedToBoard(token: string)
    | NotMoved(token: string)
    | IncorrectMove(token: string)

  datatype Verdict = Accept | Reject(error: MoveError)

  /** The match arm for one key of the move: the error it raises, or None
      when the arm accepts the key or no arm matches. */
  function EntryCheck(tokens: Tokens, moved: Option<string>, e: Entry, roll: int, n: int): (r: Option<MoveError>)
    requires e.token in tokens
    // [False, False]: a home token that stays home is fine unless the roll is 6
    ensures moved != Some(e.token) && !tokens[e.token].inPlay ==>
      (r == None <==> roll != 6) && (r != None ==> r == Some(NotMovedToBoard(e.token)))
    // [False, True]: a token in play may stay only if the roll would overshoot
    ensures moved != Some(e.token) && tokens[e.token].inPlay ==>
      (r == None <==> roll + tokens[e.token].position > n) && (r != None ==> r == Some(NotMoved(e.token)))
    // [True, True]: the moved token advances by the roll, or enters field 1 on a 6
    ensures moved == Some(e.token) && tokens[e.token].inPlay ==>
      (r == None <==> (roll == 6 && e.target == 1) || tokens[e.token].position + roll == e.target) &&
      (r != None ==> r == Some(IncorrectMove(e.token)))
    // [True, False] matches no arm
    ensures moved == Some(e.token) && !tokens[e.token].inPlay ==> r == None
  {
    var rec := tokens[e.token];
    var isMoved := moved == Some(e.token);
    if !isMoved && !rec.inPlay then
      if roll != 6 then None else Some(NotMovedToBoard(e.token))
    else if !isMoved && rec.inPlay then
      if roll + rec.position > n then None else Some(NotMoved(e.token))
    else if isMoved && rec.inPlay then
      if roll == 6 && e.target == 1 then None
      else if rec.position + roll == e.target then None
      else Some(IncorrectMove(e.token))
    else None
  }

  /** The first error raised by the arms for keys `i` onwards. */
  function CheckFrom(tokens: Tokens, move: Move, moved: Option<string>, roll: int, n: int, i: nat): Option<MoveError>
    requires KeysKnown(tokens, move) && i <= |move|
    decreases |move| - i
  {
    if i == |move| then None
    else
      var r := EntryCheck(tokens, moved, move[i], roll, n);
      if r.Some? then r else CheckFrom(tokens, move, moved, roll, n, i + 1)
  }

  /** The outcome of `_check_move`. */
  function CheckMoveVerdict(tokens: Tokens, move: Move, roll: int, n: int): Verdict
    requires KeysKnown(tokens, move)
  {
    if BothTokensMoved(tokens, move) then Reject(SimultaneousMove)
    else
      var moved := MovedToken(TokensMoved(tokens, move));
      match CheckFrom(tokens, move, moved, roll, n, 0)
      case None => Accept
      case Some(err) => Reject(err)
  }

  /** The token `_check_move` treats as the moved one. */
  function MovedKey(tokens: Tokens, move: Move): Option<string>
    requires KeysKnown(tokens, move)
  {
    MovedToken(TokensMoved(tokens, move))
  }

  /** A legal reply, stated declaratively: not every token moved, and every
      key passes its arm. */
  predicate Legal(tokens: Tokens, move: Move, roll: int, n: int)
    requires KeysKnown(tokens, move)
  {
    !BothTokensMoved(tokens, move) &&
    forall i :: 0 <= i < |move| ==> EntryCheck(tokens, MovedKey(tokens, move), move[i], roll, n) == None
  }

  lemma {:induction false} CheckFromNoneIff(tokens: Tokens, move: Move, moved: Option<string>, roll: int, n: int, i: nat)
    requires KeysKnown(tokens, move) && i <= |move|
    ensures CheckFrom(tokens, move, moved, roll, n, i) == None <==>
      forall p :: i <= p < |move| ==> EntryCheck(tokens, moved, move[p], roll, n) == None
    decreases |move| - i
  {
    if i < |move| {
      CheckFromNoneIff(tokens, move, moved, roll, n, i + 1);
    }
  }

  lemma {:induction false} CheckFromFirst(tokens: Tokens, move: Move, moved: Option<string>, roll: int, n: int, i: nat, k: nat)
    requires KeysKnown(tokens, move) && i <= k < |move|
    requires EntryCheck(tokens, moved, move[k], roll, n).Some?
    requires forall p :: i <= p < k ==> EntryCheck(tokens, moved, move[p], roll, n) == None
    ensures CheckFrom(tokens, move, moved, roll, n, i) == EntryCheck(tokens, moved, move[k], roll, n)
    decreases k - i
  {
    if i < k {
      CheckFromFirst(tokens, move, moved, roll, n, i + 1, k);
    }
  }

  /** `_check_move` accepts exactly the legal replies. */
  lemma CheckAcceptIff(tokens: Tokens, move: Move, roll: int, n: int)
    requires KeysKnown(tokens, move)
    ensures CheckMoveVerdict(tokens, move, roll, n) == Accept <==> Legal(tokens, move, roll, n)
  {
    CheckFromNoneIff(tokens, move, MovedKey(tokens, move), roll, n, 0);
  }

  /** A simultaneous move is reported before any arm is consulted. */
  lemma SimultaneousFirst(tokens: Tokens, move: Move, roll: int, n: int)
    requires KeysKnown(tokens, move)
    requires forall i :: 0 <= i < |move| ==> tokens[move[i].token].position != move[i].target
    ensures CheckMoveVerdict(tokens, move, roll, n) == Reject(SimultaneousMove)
  {
    BothMovedIffAllChange(tokens, move);
  }

  /** Otherwise the reported error is the one of the first key whose arm
      rejects it. */
  lemma RejectIsFirstFailing(tokens: Tokens, move: Move, roll: int, n: int, k: nat)
    requires KeysKnown(tokens, move) && !BothTokensMoved(tokens, move) && k < |move|
    requires EntryCheck(tokens, MovedKey(tokens, move), move[k], roll, n).Some?
    requires forall p :: 0 <= p < k ==> EntryCheck(tokens, MovedKey(tokens, move), move[p], roll, n) == None
    ensures CheckMoveVerdict(tokens, move, roll, n) == Reject(EntryCheck(tokens, MovedKey(tokens, move), move[k], roll, n).value)
  {
    CheckFromFirst(tokens, move, MovedKey(tokens, move), roll, n, 0, k);
  }

  /** Example: a home token may be placed on any field at all, even off the
      board, on any roll, when the other token legitimately stays put. */
  lemma HomeTokenPlacedAnywhere(target: int, p: int, roll: int, n: int)
    requires target != 0 && p + roll > n
    ensures CheckMoveVerdict(map["X" := TokenRecord(false, 0), "Y" := TokenRecord(true, p)],
                             [Entry("X", target), Entry("Y", p)], roll, n) == Accept
  {
    var tokens := map["X" := TokenRecord(false, 0), "Y" := TokenRecord(true, p)];
    var move := [Entry("X", target), Entry("Y", p)];
    var flags := TokensMoved(tokens, move);
    assert flags[1].1 == false;
    assert MovedKey(tokens, move) == Some("X");
    CheckAcceptIff(tokens, move, roll, n);
  }

  /** Example: Y standing on 5 and moving to 8 with a roll of 3 is rejected,
      because X comes first in the reply and did not move, so Y is not
      recognised as the moved token. */
  lemma FirstKeyOnly()
    ensures CheckMoveVerdict(map["X" := TokenRecord(false, 0), "Y" := TokenRecord(true, 5)],
                             [Entry("X", 0), Entry("Y", 8)], 3, 23) == Reject(NotMoved("Y"))
  {
    var tokens := map["X" := TokenRecord(false, 0), "Y" := TokenRecord(true, 5)];
    var move := [Entry("X", 0), Entry("Y", 8)];
    var flags := TokensMoved(tokens, move);
    assert !flags[0].1;
    assert MovedKey(tokens, move) == None;
    RejectIsFirstFailing(tokens, move, 3, 23, 1);
  }

  /** The game master; `error` is `self.error`. */
  class LudoGameMaster {
    var error: Option<MoveError>

    constructor ()
      ensures error == None
    {
      error := None;
    }

    /** `_check_move`: returns whether the reply is legal and, when it is
        not, records why in `error`. */
    method CheckMove(tokens: Tokens, move: Move, roll: int, n: int) returns (ok: bool)
      requires KeysKnown(tokens, move)
      modifies this
      ensures ok <==> CheckMoveVerdict(tokens, move, roll, n) == Accept
      ensures !ok ==> error == Some(CheckMoveVerdict(tokens, move, roll, n).error)
      ensures ok ==> error == old(error)
    {
      if BothTokensMoved(tokens, move) {
        error := Some(SimultaneousMove);
        return false;
      }
      var movedToken := GetMovedToken(TokensMoved(tokens, move));
      var checkList: seq<bool> := [];
      var i := 0;
      while i < |move|
        invariant 0 <= i <= |move|
        invariant CheckFrom(tokens, move, movedToken, roll, n, 0) == CheckFrom(tokens, move, movedToken, roll, n, i)
        invariant forall k :: 0 <= k < |checkList| ==> checkList[k]
        invariant error == old(error)
      {
        var token := move[i].token;
        var currentPosition := tokens[token].position;
        var isMoved := movedToken == Some(token);
        var inPlay := tokens[token].inPlay;
        if !isMoved && !inPlay {
          if roll != 6 {
            checkList := checkList + [true];
          } else {
            error := Some(NotMovedToBoard(token));
            return false;
          }
        } else if !isMoved && inPlay {
          if roll + currentPosition > n {
            checkList := checkList + [true];
          } else {
            error := Some(NotMoved(token));
            return false;
          }
        } else if isMoved && inPlay {
          if roll == 6 && move[i].target == 1 {
            checkList := checkList + [true];
          } else if currentPosition + roll == move[i].target {
            checkList := checkList + [true];
          } else {
            error := Some(IncorrectMove(token));
            return false;
          }
        }
        i := i + 1;
      }
      ok := AllTrue(checkList);
    }
  }

  // ---------------------------------------------------------------------
  // Applying an accepted move (master.py, inside `play`)
  // ---------------------------------------------------------------------

  /** The token records after the move's entries are written in order. */
  function Applied(tokens: Tokens, move: Move): Tokens
    requires KeysKnown(tokens, move)
  {
    if move == [] then tokens
    else
      var last := move[|move| - 1];
      Applied(tokens, move[..|move| - 1])[last.token := TokenRecord(last.target > 0, last.target)]
  }

  /** Every named token gets position := target and in_play := target > 0;
      the key set and every token outside the move are untouched. */
  lemma {:induction false} AppliedAt(tokens: Tokens, move: Move)
    requires KeysKnown(tokens, move) && DistinctTokens(move)
    ensures Applied(tokens, move).Keys == tokens.Keys
    ensures forall i :: 0 <= i < |move| ==>
      Applied(tokens, move)[move[i].token] == TokenRecord(move[i].target > 0, move[i].target)
    ensures forall t :: t in tokens && t !in MoveKeys(move) ==> Applied(tokens, move)[t] == tokens[t]
  {
    if move != [] {
      var init := move[..|move| - 1];
      var last := move[|move| - 1];
      assert DistinctTokens(init);
      AppliedAt(tokens, init);
      forall i | 0 <= i < |move|
        ensures Applied(tokens, move)[move[i].token] == TokenRecord(move[i].target > 0, move[i].target)
      {
        if i < |move| - 1 {
          assert move[i] == init[i];
        }
      }
      forall t | t in tokens && t !in MoveKeys(move)
        ensures Applied(tokens, move)[t] == tokens[t]
      {
        assert t != last.token;
        assert t !in MoveKeys(init);
      }
    }
  }

  /** The apply step: for each key of the accepted move, in order, the
      token's in_play flag and position are overwritten in place. */
  method ApplyAcceptedMove(player: LudoPlayer, move: Move)
    requires KeysKnown(player.tokens, move)
    modifies player
    ensures player.tokens == Applied(old(player.tokens), move)
  {
    var i := 0;
    while i < |move|
      invariant 0 <= i <= |move|
      invariant KeysKnown(old(player.tokens), move[..i])
      invariant player.tokens == Applied(old(player.tokens), move[..i])
    {
      assert move[..i + 1][..i] == move[..i];
      var token := move[i].token;
      player.tokens := player.tokens[token := TokenRecord(move[i].target > 0, move[i].target)];
      i := i + 1;
    }
    assert move[..|move|] == move;
  }

  // ---------------------------------------------------------------------
  // _is_won, _check_game_status
  // ---------------------------------------------------------------------

  /** `_is_won`: both of player 1's tokens stand on the last field. */
  predicate IsWon(p1: Tokens, n: int)
    requires "X" in p1 && "Y" in p1
  {
    p1["X"].position == n && p1["Y"].position == n
  }

  /** `_check_game_status`. The `elif self._is_done` test looks at the bound
      method, which is always truthy, so the source's `False` result can
      never be returned; the result is 0, 1 or -1. */
  function GameStatus(turn: int, turnLimit: int, p1: Tokens, n: int): (s: int)
    requires "X" in p1 && "Y" in p1
  {
    if turn == turnLimit then 0
    else if IsWon(p1, n) then 1
    else -1
  }

  /** Status values: a draw exactly at the turn limit whatever the board,
      otherwise a win iff player 1 has both tokens on the last field,
      otherwise a loss. */
  lemma StatusMeaning(turn: int, turnLimit: int, p1: Tokens, n: int)
    requires "X" in p1 && "Y" in p1
    ensures GameStatus(turn, turnLimit, p1, n) == 0 <==> turn == turnLimit
    ensures GameStatus(turn, turnLimit, p1, n) == 1 <==>
      turn != turnLimit && p1["X"].position == n && p1["Y"].position == n
    ensures GameStatus(turn, turnLimit, p1, n) == -1 <==>
      turn != turnLimit && !(p1["X"].position == n && p1["Y"].position == n)
  {
  }

  /** The loop `while not self._check_game_status()` keeps going only while
      the status is falsy: before the turn limit the status is already
      nonzero, so the game counts as finished at once. */
  lemma PlayLoopGuard(turn: int, turnLimit: int, p1: Tokens, n: int)
    requires "X" in p1 && "Y" in p1
    ensures turn < turnLimit ==> GameStatus(turn, turnLimit, p1, n) != 0
  {
    StatusMeaning(turn, turnLimit, p1, n);
  }

  // ---------------------------------------------------------------------
  // What a rejection hands to `reprompt`
  // ---------------------------------------------------------------------

  /** `self.error[0]` and `self.error[1]`: the error tuple's two parts, or
      the first two letters of the string "simultaneous_move". */
  function RepromptArgs(e: MoveError): (args: (string, string))
    ensures e.SimultaneousMove? ==> args == ("s", "i")
    ensures !e.SimultaneousMove? ==> args.1 == e.token
    ensures e.NotMovedToBoard? ==> args.0 == "not_moved_to_board"
    ensures e.NotMoved? ==> args.0 == "not_moved"
    ensures e.IncorrectMove? ==> args.0 == "incorrect_move"
  {
    match e
    case SimultaneousMove => ("s", "i")
    case NotMovedToBoard(t) => ("not_moved_to_board", t)
    case NotMoved(t) => ("not_moved", t)
    case IncorrectMove(t) => ("incorrect_move", t)
  }

  /** The reprompt after a rejection explains the error, except after a
      simultaneous move, whose explanation is lost: only its first letter
      reaches `reprompt`, which knows no such error type. */
  lemma RepromptAfterReject(e: MoveError)
    ensures e.SimultaneousMove? ==>
      Game.RepromptMessage(RepromptArgs(e).0, Some(RepromptArgs(e).1)) == "INVALID MOVE: Please try again."
    ensures !e.SimultaneousMove? ==>
      Game.Explanation(RepromptArgs(e).0, Some(RepromptArgs(e).1)) != ""
  {
    if e.SimultaneousMove? {
      assert RepromptArgs(e).0 == "s";
      assert "s" != "simultaneous_move" && "s" != "not_moved_to_board" && "s" != "not_moved" && "s" != "incorrect_move";
      Game.UnknownTypeMessage("s", Some("i"));
    }
  }
}

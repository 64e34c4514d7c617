/** The per-episode game object: the board string, the conversation
    context and the retry and turn counters (games/ludo/game.py). */
module Game {
  import opened Common
  import opened Text
  import opened Player

  /** One `{"role": ..., "content": ...}` entry of the context. */
  datatype Message = Message(role: string, content: string)

  /** No two consecutive entries of the context share a role. */
  predicate NoAdjacentRoles(ctx: seq<Message>)
  {
    forall i :: 0 <= i < |ctx| - 1 ==> ctx[i].role != ctx[i + 1].role
  }

  // ---------------------------------------------------------------------
  // add_message
  // ---------------------------------------------------------------------

  /** The two entries put in front of the first message: the prompt's first
      line as the system entry, and its lines from the third on, joined by
      spaces, as the user entry (the second line is dropped). */
  function Prelude(prompt: string): (ctx: seq<Message>)
    ensures |ctx| == 2 && ctx[0].role == "system" && ctx[1].role == "user"
    ensures NoAdjacentRoles(ctx)
  {
    var lines := Split(prompt, '\n');
    [Message("system", lines[0]), Message("user", Join(" ", if |lines| >= 2 then lines[2..] else []))]
  }

  /** For a prompt made of newline-free lines, the system entry holds the
      first line and the user entry the lines from the third on, joined by
      single spaces; with fewer than three lines the user entry is empty. */
  lemma PreludeOfLines(lines: seq<string>)
    requires |lines| >= 1
    requires forall i :: 0 <= i < |lines| ==> '\n' !in lines[i]
    ensures Prelude(Join("\n", lines))[0] == Message("system", lines[0])
    ensures |lines| >= 3 ==> Prelude(Join("\n", lines))[1] == Message("user", Join(" ", lines[2..]))
    ensures |lines| < 3 ==> Prelude(Join("\n", lines))[1] == Message("user", "")
  {
    SplitJoin(lines, '\n');
    assert "\n" == ['\n'];
    if |lines| == 2 {
      assert lines[2..] == [];
    }
  }

  /** Adding `message` under `role` to a non-empty context: it is merged into
      the last entry when that entry has the same role, else appended. */
  function WithMessage(ctx: seq<Message>, message: string, role: string): seq<Message>
    requires ctx != []
  {
    var last := ctx[|ctx| - 1];
    if last.role == role then ctx[..|ctx| - 1] + [Message(role, last.content + "\n" + message)]
    else ctx + [Message(role, message)]
  }

  /** Merging keeps the length and extends the last entry; otherwise one
      entry is appended. Either way the earlier entries are kept, the last
      entry has the new role, and no two adjacent entries share a role. */
  lemma WithMessageEffect(ctx: seq<Message>, message: string, role: string)
    requires ctx != []
    ensures var r := WithMessage(ctx, message, role);
      && r[|r| - 1].role == role
      && (ctx[|ctx| - 1].role == role ==>
            |r| == |ctx| && r[|r| - 1].content == ctx[|ctx| - 1].content + "\n" + message)
      && (ctx[|ctx| - 1].role != role ==>
            |r| == |ctx| + 1 && r[|ctx|] == Message(role, message))
      && r[..|ctx| - 1] == ctx[..|ctx| - 1]
      && (ctx[|ctx| - 1].role != role ==> r[..|ctx|] == ctx)
      && (NoAdjacentRoles(ctx) ==> NoAdjacentRoles(r))
  {
    var r := WithMessage(ctx, message, role);
    if ctx[|ctx| - 1].role == role {
      assert forall i :: 0 <= i < |ctx| - 1 ==> r[i] == ctx[i];
    } else {
      assert forall i :: 0 <= i < |ctx| ==> r[i] == ctx[i];
    }
  }

  /** The first user message of an episode is merged into the prelude's user
      entry rather than added as an entry of its own. */
  lemma FirstUserMessageMerges(prompt: string, message: string)
    ensures var r := WithMessage(Prelude(prompt), message, "user");
      |r| == 2 && r[0] == Prelude(prompt)[0] &&
      r[1] == Message("user", Prelude(prompt)[1].content + "\n" + message)
  {
  }

  // ---------------------------------------------------------------------
  // reprompt
  // ---------------------------------------------------------------------

  /** How an f-string renders `token`, which defaults to None. */
  function TokenText(token: Option<string>): string
  {
    match token
    case Some(t) => t
    case None => "None"
  }

  /** The sentence of the `match error_type` statement; empty for any other
      error type. */
  function Explanation(errorType: string, token: Option<string>): (s: string)
    ensures s == "" <==>
      errorType !in {"simultaneous_move", "not_moved_to_board", "not_moved", "incorrect_move"}
  {
    match errorType
    case "simultaneous_move" => "Both of your in-play tokens were moved simultaneously. "
    case "not_moved_to_board" => "Token " + TokenText(token) + " can be played to the board but wasn't. "
    case "not_moved" => "Token " + TokenText(token) + " can be moved but wasn't. "
    case "incorrect_move" => "Token " + TokenText(token) + " was moved incorrectly. "
    case _ => ""
  }

  /** The message `reprompt` adds. */
  function RepromptMessage(errorType: string, token: Option<string>): string
  {
    RepromptHead + Explanation(errorType, token) + RepromptTail
  }

  const RepromptHead: string := "INVALID MOVE: "
  const RepromptTail: string := "Please try again."

  /** Every reprompt starts with "INVALID MOVE: " and ends with "Please try
      again.", with the explanation in between. */
  lemma RepromptMessageShape(errorType: string, token: Option<string>)
    ensures var m := RepromptMessage(errorType, token);
      |m| >= |RepromptHead| + |RepromptTail| && m[..|RepromptHead|] == RepromptHead &&
      m[|m| - |RepromptTail|..] == RepromptTail &&
      m[|RepromptHead|..|m| - |RepromptTail|] == Explanation(errorType, token)
  {
    ThreeParts(RepromptHead, Explanation(errorType, token), RepromptTail);
  }

  /** Slicing a concatenation of three strings back into its parts. */
  lemma ThreeParts(h: string, e: string, t: string)
    ensures var m := h + e + t;
      |m| == |h| + |e| + |t| && m[..|h|] == h && m[|m| - |t|..] == t && m[|h|..|m| - |t|] == e
  {
    var m := h + e + t;
    assert m == h + (e + t);
    assert m[..|h|] == h;
    assert m[|h|..] == e + t;
    assert m[|m| - |t|..] == (e + t)[|e|..];
  }

  /** An unknown error type adds no sentence: the message is exactly
      "INVALID MOVE: Please try again.". */
  lemma UnknownTypeMessage(errorType: string, token: Option<string>)
    requires errorType !in {"simultaneous_move", "not_moved_to_board", "not_moved", "incorrect_move"}
    ensures RepromptMessage(errorType, token) == "INVALID MOVE: Please try again."
  {
    assert Explanation(errorType, token) == "";
    assert RepromptHead + "" + RepromptTail == "INVALID MOVE: Please try again.";
  }

  // ---------------------------------------------------------------------
  // The board string
  // ---------------------------------------------------------------------

  const Empty: string := "□"

  /** `_reset_board`: `" ".join(["□"] * n_fields).strip()`. */
  function ResetBoard(n: int): string
  {
    Strip(Join(" ", Repeat(Empty, n)))
  }

  /** A board cell: a non-empty string without whitespace. */
  predicate IsCell(c: string)
  {
    c != [] && forall i :: 0 <= i < |c| ==> !IsSpace(c[i])
  }

  lemma {:induction false} WordsCons(w: string, rest: string)
    requires IsCell(w)
    requires rest == [] || IsSpace(rest[0])
    ensures Words(w + rest) == [w] + Words(rest)
    decreases |w|
  {
    var s := w + rest;
    assert s[0] == w[0];
    assert s[1..] == w[1..] + rest;
    if |w| > 1 {
      WordsCons(w[1..], rest);
      assert s[1] == w[1];
      var r := Words(s[1..]);
      assert r == [w[1..]] + Words(rest);
      assert Words(s) == [[s[0]] + r[0]] + r[1..];
      assert [w[0]] + w[1..] == w;
      assert r[1..] == Words(rest);
    } else {
      assert w == [s[0]];
      assert s[1..] == rest;
      assert |s| > 1 ==> s[1] == rest[0];
    }
  }

  lemma {:induction false} JoinFirstLast(cells: seq<string>)
    requires forall i :: 0 <= i < |cells| ==> IsCell(cells[i])
    ensures cells == [] <==> Join(" ", cells) == []
    ensures cells != [] ==> IsCell(cells[0]) && IsCell(cells[|cells| - 1]) && |Join(" ", cells)| > 0
    ensures cells != [] ==> Join(" ", cells)[0] == cells[0][0]
    ensures cells != [] ==>
      Join(" ", cells)[|Join(" ", cells)| - 1] == cells[|cells| - 1][|cells[|cells| - 1]| - 1]
  {
    if |cells| > 1 {
      JoinFirstLast(cells[1..]);
      assert cells[1..][|cells[1..]| - 1] == cells[|cells| - 1];
    }
  }

  /** Splitting a space-joined row of cells on whitespace gives the row back,
      and stripping the joined row changes nothing. */
  lemma WordsOfJoin(cells: seq<string>)
    requires forall i :: 0 <= i < |cells| ==> IsCell(cells[i])
    ensures Strip(Join(" ", cells)) == Join(" ", cells)
    ensures Words(Join(" ", cells)) == cells
  {
    JoinFirstLast(cells);
    StripUnchanged(Join(" ", cells));
    WordsJoin(cells);
  }

  lemma {:induction false} WordsJoin(cells: seq<string>)
    requires forall i :: 0 <= i < |cells| ==> IsCell(cells[i])
    ensures Words(Join(" ", cells)) == cells
  {
    if |cells| == 1 {
      WordsCons(cells[0], "");
      assert cells[0] + "" == cells[0];
    } else if |cells| > 1 {
      var rest := Join(" ", cells[1..]);
      WordsJoin(cells[1..]);
      assert Join(" ", cells) == cells[0] + (" " + rest);
      WordsCons(cells[0], " " + rest);
      assert (" " + rest)[1..] == rest;
    }
  }

  /** `_reset_board` is n_fields copies of "□" separated by single spaces,
      and `.split()` turns it back into the list of cells. */
  lemma ResetBoardShape(n: int)
    ensures ResetBoard(n) == Join(" ", Repeat(Empty, n))
    ensures Words(ResetBoard(n)) == Repeat(Empty, n)
  {
    WordsOfJoin(Repeat(Empty, n));
  }

  /** Python's index into a list of length `len`, negative indices counting
      from the end. */
  function PyIndex(k: int, len: nat): (idx: nat)
    requires -(len as int) <= k < len
    ensures idx < len
  {
    if k < 0 then k + len else k
  }

  /** `split_board[move[token] - 1]` is a valid Python index. */
  predicate TargetsOnBoard(tokens: Tokens, move: Move, n: nat)
  {
    forall i :: 0 <= i < |move| ==>
      move[i].token in tokens && (tokens[move[i].token].inPlay ==> -(n as int) <= move[i].target - 1 < n)
  }

  /** The entry `e` writes its token into cell `k`. */
  predicate Writes(tokens: Tokens, e: Entry, n: nat, k: int)
    requires e.token in tokens && (tokens[e.token].inPlay ==> -(n as int) <= e.target - 1 < n)
  {
    tokens[e.token].inPlay && PyIndex(e.target - 1, n) == k
  }

  /** The cells of the board after the keys of the move are written in
      order, starting from a blank board. */
  function BoardCells(tokens: Tokens, move: Move, n: nat): (cells: seq<string>)
    requires TargetsOnBoard(tokens, move, n)
    ensures |cells| == n
  {
    if move == [] then Repeat(Empty, n)
    else
      var last := move[|move| - 1];
      var c := BoardCells(tokens, move[..|move| - 1], n);
      if tokens[last.token].inPlay then c[PyIndex(last.target - 1, n) := last.token] else c
  }

  /** A cell holds the token of the last entry that writes it, and "□" if no
      entry does. */
  lemma {:induction false} BoardCellsAt(tokens: Tokens, move: Move, n: nat, k: nat)
    requires TargetsOnBoard(tokens, move, n) && k < n
    ensures (forall i :: 0 <= i < |move| ==> !Writes(tokens, move[i], n, k)) ==>
      BoardCells(tokens, move, n)[k] == Empty
    ensures forall i ::
      (0 <= i < |move| && Writes(tokens, move[i], n, k) &&
       (forall j :: i < j < |move| ==> !Writes(tokens, move[j], n, k))) ==>
      BoardCells(tokens, move, n)[k] == move[i].token
  {
    if move != [] {
      var init := move[..|move| - 1];
      var last := move[|move| - 1];
      assert forall i :: 0 <= i < |init| ==> init[i] == move[i];
      BoardCellsAt(tokens, init, n, k);
    }
  }

  /** When every token name is a cell, the board string splits into exactly
      n_fields cells, those of `BoardCells`. */
  lemma BoardWords(tokens: Tokens, move: Move, n: nat)
    requires TargetsOnBoard(tokens, move, n)
    requires forall i :: 0 <= i < |move| ==> IsCell(move[i].token)
    ensures Words(Strip(Join(" ", BoardCells(tokens, move, n)))) == BoardCells(tokens, move, n)
  {
    BoardCellsAreCells(tokens, move, n);
    WordsOfJoin(BoardCells(tokens, move, n));
  }

  lemma {:induction false} BoardCellsAreCells(tokens: Tokens, move: Move, n: nat)
    requires TargetsOnBoard(tokens, move, n)
    requires forall i :: 0 <= i < |move| ==> IsCell(move[i].token)
    ensures forall k :: 0 <= k < n ==> IsCell(BoardCells(tokens, move, n)[k])
  {
    if move != [] {
      var init := move[..|move| - 1];
      assert forall i :: 0 <= i < |init| ==> init[i] == move[i];
      BoardCellsAreCells(tokens, init, n);
    }
  }

  // ---------------------------------------------------------------------
  // The Game object
  // ---------------------------------------------------------------------

  class Game {
    var nFields: nat
    var currentState: string
    var initialPrompt: string
    var context: seq<Message>
    var repromptAttempts: int
    var totalRetryCount: int
    var isAborted: bool
    var turnLimit: int
    var turn: int
    var rolls: seq<Roll>
    var player1: LudoPlayer

    /** The context never holds two adjacent entries with the same role. */
    predicate Valid()
      reads this
    {
      NoAdjacentRoles(context)
    }

    /** `__init__`, with the loaded template passed in as `prompt`. */
    constructor (prompt: string, n: nat, rs: seq<Roll>)
      ensures Valid()
      ensures nFields == n && currentState == ResetBoard(n) && initialPrompt == prompt
      ensures context == [] && repromptAttempts == 0 && totalRetryCount == 0 && !isAborted
      ensures turnLimit == |rs| && turn == 0 && rolls == rs
      ensures fresh(player1) && player1.tokens == InitialTokens()
    {
      nFields := n;
      currentState := ResetBoard(n);
      initialPrompt := prompt;
      context := [];
      repromptAttempts := 0;
      totalRetryCount := 0;
      isAborted := false;
      turnLimit := |rs|;
      turn := 0;
      rolls := rs;
      player1 := new LudoPlayer();
    }

    /** `add_message`; Python's default role is "user". */
    method AddMessage(message: string, role: string)
      requires Valid()
      modifies this
      ensures Valid()
      ensures context == WithMessage(if old(context) == [] then Prelude(initialPrompt) else old(context), message, role)
      ensures nFields == old(nFields) && currentState == old(currentState) && initialPrompt == old(initialPrompt)
      ensures repromptAttempts == old(repromptAttempts) && totalRetryCount == old(totalRetryCount)
      ensures isAborted == old(isAborted) && turnLimit == old(turnLimit) && turn == old(turn)
      ensures rolls == old(rolls) && player1 == old(player1)
    {
      if context == [] {
        var splitPrompt := Split(initialPrompt, '\n');
        context := context + [Message("system", splitPrompt[0])];
        context := context + [Message("user", Join(" ", if |splitPrompt| >= 2 then splitPrompt[2..] else []))];
        assert context == Prelude(initialPrompt);
      }
      ghost var before := context;
      WithMessageEffect(before, message, role);
      var last := context[|context| - 1];
      if last.role == role {
        context := context[..|context| - 1] + [Message(role, last.content + "\n" + message)];
      } else {
        context := context + [Message(role, message)];
      }
      assert context == WithMessage(before, message, role);
    }

    /** `reprompt`: adds the error message as a user message and counts
        one more attempt. */
    method Reprompt(errorType: string, token: Option<string>)
      requires Valid()
      modifies this
      ensures Valid()
      ensures repromptAttempts == old(repromptAttempts) + 1
      ensures context == WithMessage(if old(context) == [] then Prelude(initialPrompt) else old(context),
                                     RepromptMessage(errorType, token), "user")
      ensures nFields == old(nFields) && currentState == old(currentState) && initialPrompt == old(initialPrompt)
      ensures totalRetryCount == old(totalRetryCount)
      ensures isAborted == old(isAborted) && turnLimit == old(turnLimit) && turn == old(turn)
      ensures rolls == old(rolls) && player1 == old(player1)
    {
      var message := "INVALID MOVE: ";
      message := message + Explanation(errorType, token);
      message := message + "Please try again.";
      assert message == RepromptMessage(errorType, token);
      AddMessage(message, "user");
      repromptAttempts := repromptAttempts + 1;
    }

    /** `update_board`: redraws the board from blank with the player's
        in-play tokens at their targets; the previous board, including the
        other player's tokens, is discarded. */
    method UpdateBoard(player: LudoPlayer, move: Move)
      requires TargetsOnBoard(player.tokens, move, nFields)
      modifies this
      ensures nFields == old(nFields) && context == old(context) && initialPrompt == old(initialPrompt)
      ensures currentState == Strip(Join(" ", BoardCells(player.tokens, move, nFields)))
      ensures repromptAttempts == old(repromptAttempts) && totalRetryCount == old(totalRetryCount)
      ensures isAborted == old(isAborted) && turnLimit == old(turnLimit) && turn == old(turn)
      ensures rolls == old(rolls) && player1 == old(player1)
    {
      ResetBoardShape(nFields);
      var splitBoard := Words(ResetBoard(nFields));
      var i := 0;
      while i < |move|
        invariant 0 <= i <= |move|
        invariant TargetsOnBoard(player.tokens, move[..i], nFields)
        invariant splitBoard == BoardCells(player.tokens, move[..i], nFields)
      {
        assert move[..i + 1][..i] == move[..i];
        var token := move[i].token;
        if player.tokens[token].inPlay {
          splitBoard := splitBoard[PyIndex(move[i].target - 1, nFields) := token];
        }
        i := i + 1;
      }
      assert move[..|move|] == move;
      currentState := Strip(Join(" ", splitBoard));
    }

    /** The game master's `reprompt_attempts = 0` after an accepted move:
        the attempt counter starts again, and nothing else changes. */
    method ResetRepromptAttempts()
      modifies this
      ensures repromptAttempts == 0
      ensures nFields == old(nFields) && currentState == old(currentState) && initialPrompt == old(initialPrompt)
      ensures context == old(context) && totalRetryCount == old(totalRetryCount)
      ensures isAborted == old(isAborted) && turnLimit == old(turnLimit) && turn == old(turn)
      ensures rolls == old(rolls) && player1 == old(player1)
    {
      repromptAttempts := 0;
    }
  }
}

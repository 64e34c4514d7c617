/** The scorer of a Ludo episode: the per-move comparison with an oracle's
    move, the event counting of `compute_scores`, its guarded ratios and the
    final-status flags. Percentages are modelled on `real`. */
module Scoring {
  import opened Common

  /** A token-to-position dictionary, as logged for a turn. */
  type State = map<string, int>

  /** `_check_equivalence`: 1 exactly when every token of `updated` has the
      same position in `selected`. Tokens that only `selected` has do not
      matter. A token of `updated` missing from `selected` is a `KeyError`. */
  method CheckEquivalence(updated: State, selected: State) returns (score: int)
    requires updated.Keys <= selected.Keys
    ensures score == 0 || score == 1
    ensures score == 1 <==> forall t :: t in updated ==> updated[t] == selected[t]
    ensures updated == selected ==> score == 1
  {
    var matches: seq<bool> := [];
    ghost var seen: set<string> := {};
    var remaining := updated.Keys;
    while remaining != {}
      invariant remaining + seen == updated.Keys && remaining !! seen
      invariant AllTrue(matches) <==> AgreeOn(updated, selected, seen)
      decreases |remaining|
    {
      var t :| t in remaining;
      AllTrueAppend(matches, updated[t] == selected[t]);
      AgreeOnAdd(updated, selected, seen, t);
      matches := matches + [updated[t] == selected[t]];
      seen := seen + {t};
      remaining := remaining - {t};
    }
    score := if AllTrue(matches) then 1 else 0;
  }

  /** The two states give the same position to every token of `ts`. */
  predicate AgreeOn(updated: State, selected: State, ts: set<string>)
    requires ts <= updated.Keys && updated.Keys <= selected.Keys
  {
    forall t :: t in ts ==> updated[t] == selected[t]
  }

  lemma AllTrueAppend(bs: seq<bool>, b: bool)
    ensures AllTrue(bs + [b]) <==> AllTrue(bs) && b
  {
    assert (bs + [b])[|bs|] == b;
    assert forall j :: 0 <= j < |bs| ==> (bs + [b])[j] == bs[j];
  }

  lemma AgreeOnAdd(updated: State, selected: State, ts: set<string>, t: string)
    requires ts <= updated.Keys && updated.Keys <= selected.Keys && t in updated
    ensures AgreeOn(updated, selected, ts + {t}) <==> AgreeOn(updated, selected, ts) && updated[t] == selected[t]
  {
  }

  /** The oracle's move applied to a copy of the current state: one token is
      overwritten (or added) and every other token keeps its position. */
  function SelectMove(current: State, simulated: (string, int)): (selected: State)
    ensures selected.Keys == current.Keys + {simulated.0}
    ensures selected[simulated.0] == simulated.1
    ensures forall t :: t in current && t != simulated.0 ==> selected[t] == current[t]
  {
    current[simulated.0 := simulated.1]
  }

  /** The turn score of `_sp_move_score` / `_mp_move_score` once the oracle
      has proposed `simulated`: 1 exactly when the state the player reached
      agrees with the oracle's move on every logged token. */
  method MoveScore(current: State, updated: State, simulated: (string, int)) returns (score: int)
    requires updated.Keys <= current.Keys + {simulated.0}
    ensures score == 0 || score == 1
    ensures score == 1 <==>
      (simulated.0 in updated ==> updated[simulated.0] == simulated.1) &&
      (forall t :: t in updated && t != simulated.0 ==> updated[t] == current[t])
    ensures updated == SelectMove(current, simulated) ==> score == 1
  {
    var selected := SelectMove(current, simulated);
    score := CheckEquivalence(updated, selected);
  }

  // ---------------------------------------------------------------------
  // Event counting

  /** One logged event of a turn; only its action type is counted. */
  datatype Event = Event(kind: string)

  const CurrentState := "current state"
  const AcceptedMove := "accepted move"
  const RepromptEvent := "reprompt"
  const ParsingFailed := "parsing failed"
  const ErrorEvent := "error"

  /** The number of events of the given kind. */
  function Count(events: seq<Event>, kind: string): (n: nat)
    ensures n <= |events|
  {
    if events == [] then 0
    else Count(events[..|events| - 1], kind) + (if events[|events| - 1].kind == kind then 1 else 0)
  }

  /** All events of an episode, turn after turn. */
  function Flatten(turns: seq<seq<Event>>): (all: seq<Event>)
    ensures turns == [] ==> all == []
  {
    if turns == [] then [] else Flatten(turns[..|turns| - 1]) + turns[|turns| - 1]
  }

  /** The sum over the turns of the per-turn count. */
  function Total(turns: seq<seq<Event>>, kind: string): nat
  {
    if turns == [] then 0 else Total(turns[..|turns| - 1], kind) + Count(turns[|turns| - 1], kind)
  }

  /** No event of a kind is a count of zero, and the other way round. */
  lemma {:induction false} CountZeroIff(events: seq<Event>, kind: string)
    ensures Count(events, kind) == 0 <==> forall i :: 0 <= i < |events| ==> events[i].kind != kind
  {
    if events != [] {
      var front := events[..|events| - 1];
      CountZeroIff(front, kind);
      assert forall i :: 0 <= i < |front| ==> front[i] == events[i];
    }
  }

  lemma {:induction false} CountAppend(a: seq<Event>, b: seq<Event>, kind: string)
    ensures Count(a + b, kind) == Count(a, kind) + Count(b, kind)
    decreases |b|
  {
    if b == [] {
      assert a + b == a;
    } else {
      var c := b[..|b| - 1];
      assert (a + b)[..|a + b| - 1] == a + c;
      CountAppend(a, c, kind);
    }
  }

  /** Counting turn by turn and adding up is counting the whole episode. */
  lemma {:induction false} TotalIsCountOfAll(turns: seq<seq<Event>>, kind: string)
    ensures Total(turns, kind) == Count(Flatten(turns), kind)
  {
    if turns != [] {
      var front := turns[..|turns| - 1];
      TotalIsCountOfAll(front, kind);
      CountAppend(Flatten(front), turns[|turns| - 1], kind);
    }
  }

  lemma CountStep(events: seq<Event>, k: nat, kind: string)
    requires k < |events|
    ensures Count(events[..k + 1], kind) == Count(events[..k], kind) + (if events[k].kind == kind then 1 else 0)
  {
    assert events[..k + 1][..k] == events[..k];
  }

  lemma TotalStep(turns: seq<seq<Event>>, i: nat, kind: string)
    requires i < |turns|
    ensures Total(turns[..i + 1], kind) == Total(turns[..i], kind) + Count(turns[i], kind)
  {
    assert turns[..i + 1][..i] == turns[..i];
  }

  /** The counters of one turn. */
  datatype TurnCounts = TurnCounts(reprompts: nat, parsingErrors: nat, errors: nat)

  /** The counters of an episode, with the per-turn counters in order. */
  datatype EpisodeCounts = EpisodeCounts(accepted: nat, parsingErrors: nat, errors: nat, perTurn: seq<TurnCounts>)

  /** What the counters of one turn should hold. */
  function TurnOf(turn: seq<Event>): TurnCounts
  {
    TurnCounts(Count(turn, RepromptEvent), Count(turn, ParsingFailed), Count(turn, ErrorEvent))
  }

  /** The inner loop of `compute_scores` over the events of one turn: the
      turn's counters and the number of accepted moves in it. */
  method CountTurn(turn: seq<Event>) returns (tc: TurnCounts, accepted: nat)
    ensures tc == TurnOf(turn)
    ensures accepted == Count(turn, AcceptedMove)
  {
    var turnReprompts := 0;
    var turnParsingErrors := 0;
    var errorTurnSum := 0;
    accepted := 0;
    var k := 0;
    while k < |turn|
      invariant 0 <= k <= |turn|
      invariant turnReprompts == Count(turn[..k], RepromptEvent)
      invariant turnParsingErrors == Count(turn[..k], ParsingFailed)
      invariant errorTurnSum == Count(turn[..k], ErrorEvent)
      invariant accepted == Count(turn[..k], AcceptedMove)
    {
      var kind := turn[k].kind;
      CountStep(turn, k, AcceptedMove);
      CountStep(turn, k, RepromptEvent);
      CountStep(turn, k, ParsingFailed);
      CountStep(turn, k, ErrorEvent);
      if kind == AcceptedMove {
        accepted := accepted + 1;
      }
      if kind == RepromptEvent {
        turnReprompts := turnReprompts + 1;
      }
      if kind == ParsingFailed {
        turnParsingErrors := turnParsingErrors + 1;
      }
      if kind == ErrorEvent {
        errorTurnSum := errorTurnSum + 1;
      }
      k := k + 1;
    }
    assert turn[..k] == turn;
    tc := TurnCounts(turnReprompts, turnParsingErrors, errorTurnSum);
  }

  /** The counting loops of `compute_scores`. The episode's parsing-error and
      error totals are the sums of the per-turn counters. */
  method CountEvents(turns: seq<seq<Event>>) returns (c: EpisodeCounts)
    ensures |c.perTurn| == |turns|
    ensures forall i :: 0 <= i < |turns| ==> c.perTurn[i] == TurnOf(turns[i])
    ensures c.parsingErrors == Total(turns, ParsingFailed)
    ensures c.errors == Total(turns, ErrorEvent)
    ensures c.accepted == Count(Flatten(turns), AcceptedMove)
    ensures c.parsingErrors == Count(Flatten(turns), ParsingFailed)
    ensures c.errors == Count(Flatten(turns), ErrorEvent)
  {
    var errorEpisodeSum := 0;
    var episodeParsingErrors := 0;
    var acceptedMoveSum := 0;
    var perTurn: seq<TurnCounts> := [];
    var i := 0;
    while i < |turns|
      invariant 0 <= i <= |turns|
      invariant |perTurn| == i
      invariant forall j :: 0 <= j < i ==> perTurn[j] == TurnOf(turns[j])
      invariant acceptedMoveSum == Total(turns[..i], AcceptedMove)
      invariant episodeParsingErrors == Total(turns[..i], ParsingFailed)
      invariant errorEpisodeSum == Total(turns[..i], ErrorEvent)
    {
      var tc, accepted := CountTurn(turns[i]);
      TotalStep(turns, i, AcceptedMove);
      TotalStep(turns, i, ParsingFailed);
      TotalStep(turns, i, ErrorEvent);
      acceptedMoveSum := acceptedMoveSum + accepted;
      episodeParsingErrors := episodeParsingErrors + tc.parsingErrors;
      errorEpisodeSum := errorEpisodeSum + tc.errors;
      perTurn := perTurn + [tc];
      i := i + 1;
    }
    assert turns[..i] == turns;
    TotalIsCountOfAll(turns, AcceptedMove);
    TotalIsCountOfAll(turns, ParsingFailed);
    TotalIsCountOfAll(turns, ErrorEvent);
    c := EpisodeCounts(acceptedMoveSum, episodeParsingErrors, errorEpisodeSum, perTurn);
  }

  // ---------------------------------------------------------------------
  // Guarded ratios and flags

  /** `(part / whole) * 100` guarded by `whole > 0`, as in the parsing-error
      shares of a turn and of an episode. */
  function Percent(part: nat, whole: nat): (r: real)
    ensures whole == 0 ==> r == 0.0
    ensures whole > 0 ==> r * (whole as real) == (part as real) * 100.0
    ensures 0.0 <= r
    ensures part <= whole ==> r <= 100.0
  {
    if whole > 0 then (part as real / whole as real) * 100.0 else 0.0
  }

  /** The episode speed: 0 for an aborted episode, otherwise the minimum
      number of moves as a percentage of the turns played. */
  function Speed(aborted: bool, minMoves: nat, finalTurn: nat): (r: real)
    ensures aborted ==> r == 0.0
    ensures !aborted ==> r * ((finalTurn + 1) as real) == (minMoves as real) * 100.0
    ensures !aborted && minMoves <= finalTurn + 1 ==> 0.0 <= r <= 100.0
  {
    if aborted then 0.0 else ((minMoves as real) * 1.0 / ((finalTurn + 1) as real)) * 100.0
  }

  /** "Errors Per Accepted Move" as the scorer computes it: accepted moves
      per error, in percent, guarded by the error count. */
  function ErrorsPerAcceptedMoveAsWritten(accepted: nat, errors: nat): (r: real)
    ensures errors == 0 ==> r == 0.0
    ensures errors > 0 ==> r * (errors as real) == (accepted as real) * 100.0
  {
    Percent(accepted, errors)
  }

  /** With four accepted moves and one error the metric reads 400, and a
      second error lowers it to 200: more errors score lower. */
  lemma ErrorsPerAcceptedMoveInverted()
    ensures ErrorsPerAcceptedMoveAsWritten(4, 1) == 400.0
    ensures ErrorsPerAcceptedMoveAsWritten(4, 2) == 200.0
  {
  }

  /** Errors per accepted move, in percent, guarded by the accepted count. */
  function ErrorsPerAcceptedMove(accepted: nat, errors: nat): (r: real)
    ensures accepted == 0 ==> r == 0.0
    ensures accepted > 0 ==> r * (accepted as real) == (errors as real) * 100.0
  {
    Percent(errors, accepted)
  }

  lemma DivideMonotone(x: real, y: real, a: real)
    requires x < y && a > 0.0
    ensures x / a < y / a
  {
  }

  /** The corrected metric grows with the number of errors. */
  lemma MoreErrorsScoreHigher(e1: nat, e2: nat, accepted: nat)
    requires e1 < e2 && accepted > 0
    ensures ErrorsPerAcceptedMove(accepted, e1) < ErrorsPerAcceptedMove(accepted, e2)
  {
    var r1 := ErrorsPerAcceptedMove(accepted, e1);
    var r2 := ErrorsPerAcceptedMove(accepted, e2);
    var a := accepted as real;
    assert r1 == ((e1 as real) / a) * 100.0;
    assert r2 == ((e2 as real) / a) * 100.0;
    DivideMonotone(e1 as real, e2 as real, a);
  }

  /** The guarded ratios of an episode. */
  datatype Ratios = Ratios(speed: real, parsingErrorShare: real, errorsPerAcceptedMove: real)

  /** The episode's speed, parsing-error share and errors per accepted move,
      with the last one in its corrected form (errors over accepted moves)
      rather than as the scorer logs it. */
  function CorrectedEpisodeRatios(c: EpisodeCounts, aborted: bool, minMoves: nat, finalTurn: nat): (r: Ratios)
    ensures aborted ==> r.speed == 0.0
    ensures !aborted ==> r.speed * ((finalTurn + 1) as real) == (minMoves as real) * 100.0
    ensures c.errors == 0 ==> r.parsingErrorShare == 0.0
    ensures c.errors > 0 ==> r.parsingErrorShare * (c.errors as real) == (c.parsingErrors as real) * 100.0
    ensures c.parsingErrors <= c.errors ==> r.parsingErrorShare <= 100.0
    ensures c.accepted == 0 ==> r.errorsPerAcceptedMove == 0.0
    ensures c.accepted > 0 ==> r.errorsPerAcceptedMove * (c.accepted as real) == (c.errors as real) * 100.0
  {
    Ratios(Speed(aborted, minMoves, finalTurn), Percent(c.parsingErrors, c.errors), ErrorsPerAcceptedMove(c.accepted, c.errors))
  }

  /** The four status metrics: ABORTED, WIN, LOSE and DRAW. */
  datatype Flags = Flags(aborted: int, success: int, lose: int, turnLimitReached: int)

  ghost predicate IsStatus(status: string)
  {
    status == "ABORTED" || status == "WIN" || status == "LOSE" || status == "DRAW"
  }

  /** For each of the four statuses exactly its own flag is 1; for any other
      status all four are 0. */
  function StatusFlags(status: string): (f: Flags)
    ensures f.aborted + f.success + f.lose + f.turnLimitReached == (if IsStatus(status) then 1 else 0)
    ensures f.aborted == 1 <==> status == "ABORTED"
    ensures f.success == 1 <==> status == "WIN"
    ensures f.lose == 1 <==> status == "LOSE"
    ensures f.turnLimitReached == 1 <==> status == "DRAW"
    ensures 0 <= f.aborted <= 1 && 0 <= f.success <= 1 && 0 <= f.lose <= 1 && 0 <= f.turnLimitReached <= 1
  {
    Flags(if status == "ABORTED" then 1 else 0,
          if status == "WIN" then 1 else 0,
          if status == "LOSE" then 1 else 0,
          if status == "DRAW" then 1 else 0)
  }
}

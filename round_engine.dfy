/**
 The round engine of "Outsmart Me If You Can": the per-browser session that
 tracks the round number, both scores, whether the match is still running,
 the current round type, the pending round result and the Pattern Trap
 move history.

 `State` is the value of a session at one moment; `Init`, `Turn` and
 `Advance` say what the engine's operations do to it. The class `Session`
 holds the same fields and updates them in place, as the game does, and each
 of its methods is tied to the matching function through `Snapshot()`.
 */
module RoundEngine {
  import opened RoundRules

  /** What a button press carries: a number (Pattern Trap, Instinct Round) or a stance (Authority Challenge). */
  datatype Move = Pick(n: Number) | Answer(stance: Stance)

  /** The event tag sent with a commentary request. `Reaction(o)` is the tag named after the round outcome. */
  datatype Trigger = Welcome | Reaction(outcome: Outcome) | GameOverWin | GameOverLose

  /** The context text of a commentary request. */
  datatype Context = Note(text: string) | FinalScore(human: nat, ai: nat)

  /** One request to the commentary service, with the scores it reads when it is made.
      The reply is free text that the engine never inspects, so the model keeps the request. */
  datatype Commentary = Request(trigger: Trigger, context: Context, humanScore: nat, aiScore: nat)

  /** The two sides, for the end-of-match verdict. */
  datatype Player = Human | Ai

  datatype State = State(
    roundCount: nat,
    humanScore: nat,
    aiScore: nat,
    gameActive: bool,
    roundType: RoundType,
    lastResult: Option<Verdict>,
    history: seq<Number>,
    aiText: Commentary)

  /** The buttons shown for a round: numbers for Pattern Trap and Instinct Round, RED/BLUE for Authority. */
  predicate Fits(t: RoundType, m: Move)
  {
    if t == Authority then m.Answer? else m.Pick?
  }

  /** A fresh match whose first round type was drawn as `firstType`. */
  function Init(firstType: RoundType): (s: State)
    ensures s.roundCount == 1 && s.humanScore == 0 && s.aiScore == 0
    ensures s.gameActive && s.lastResult == None && s.history == []
    ensures s.roundType == firstType
    ensures s.aiText.trigger == Welcome
  {
    State(1, 0, 0, true, firstType, None, [], Request(Welcome, Note("Game Start"), 0, 0))
  }

  /** The evaluator the current round type selects. `draw` is the AI's random pick,
      used by Pattern Trap (as its guess) and Instinct Round (as its element). */
  function Evaluate(s: State, m: Move, draw: Number): (v: Verdict)
    requires Fits(s.roundType, m)
    ensures s.roundType == Pattern ==> v == PatternTrap(s.history, m.n, draw)
    ensures s.roundType == Authority ==> v == AuthorityChallenge(m.stance)
    ensures s.roundType == Instinct ==> v == InstinctRound(m.n, draw)
    ensures v.outcome == Draw ==> s.roundType == Instinct
    ensures s.roundType == Instinct ==> (v.outcome == Draw <==> m.n == draw)
    ensures s.roundType == Pattern ==> (v.outcome == HumanWin <==> !Repeats(s.history, m.n) && draw != m.n)
    ensures s.roundType == Authority ==> (v.outcome == AiWin <==> m.stance == Advice)
    ensures s.roundType == Instinct ==> (v.outcome == HumanWin <==> Beats(m.n, draw))
    ensures s.roundType == Pattern && Repeats(s.history, m.n) ==> v.outcome == AiWin
  {
    match s.roundType
    case Pattern => PatternTrap(s.history, m.n, draw)
    case Authority => AuthorityChallenge(m.stance)
    case Instinct => InstinctRound(m.n, draw)
  }

  /** One move of the current round: the winner gains exactly one point (a draw
      gains nobody anything), the verdict becomes pending, a Pattern Trap move is
      recorded, and nothing else about the match moves. */
  function Turn(s: State, m: Move, draw: Number): (s': State)
    requires s.gameActive && s.lastResult.None? && Fits(s.roundType, m)
    ensures var o := Evaluate(s, m, draw).outcome;
      && (o == AiWin ==> s'.aiScore == s.aiScore + 1 && s'.humanScore == s.humanScore)
      && (o == HumanWin ==> s'.humanScore == s.humanScore + 1 && s'.aiScore == s.aiScore)
      && (o == Draw ==> s'.humanScore == s.humanScore && s'.aiScore == s.aiScore)
      && s'.aiText.trigger == Reaction(o)
    ensures s'.lastResult == Some(Evaluate(s, m, draw))
    ensures s'.roundCount == s.roundCount && s'.gameActive && s'.roundType == s.roundType
    ensures s.roundType == Pattern ==> s'.history == s.history + [m.n]
    ensures s.roundType != Pattern ==> s'.history == s.history
  {
    var v := Evaluate(s, m, draw);
    var history := if s.roundType == Pattern then s.history + [m.n] else s.history;
    match v.outcome
    case AiWin =>
      s.(aiScore := s.aiScore + 1, lastResult := Some(v), history := history,
         aiText := Request(Reaction(AiWin), Note(v.reason), s.humanScore, s.aiScore + 1))
    case HumanWin =>
      s.(humanScore := s.humanScore + 1, lastResult := Some(v), history := history,
         aiText := Request(Reaction(HumanWin), Note(v.reason), s.humanScore + 1, s.aiScore))
    case Draw =>
      s.(lastResult := Some(v), history := history,
         aiText := Request(Reaction(Draw), Note("It was a draw."), s.humanScore, s.aiScore))
  }

  /** The match is over once either side has three points or round 5 is behind us. */
  predicate GameOver(s: State)
  {
    s.humanScore >= 3 || s.aiScore >= 3 || s.roundCount > 5
  }

  /** Who the match is awarded to once it ends. */
  function Winner(s: State): Player
  {
    if s.humanScore > s.aiScore then Human else Ai
  }

  /** "Next Round": either the match ends (scores, round, pending result untouched,
      the game-over commentary names the winner) or the next round starts with
      the drawn type and no pending result. */
  function Advance(s: State, nextType: RoundType): (s': State)
    requires s.gameActive && s.lastResult.Some?
    ensures s'.humanScore == s.humanScore && s'.aiScore == s.aiScore && s'.history == s.history
    ensures !s'.gameActive <==> GameOver(s)
    ensures GameOver(s) ==>
      && s'.roundCount == s.roundCount && s'.lastResult == s.lastResult && s'.roundType == s.roundType
      && s'.aiText.context == FinalScore(s.humanScore, s.aiScore)
      && (s'.aiText.trigger == GameOverWin <==> s.humanScore > s.aiScore)
      && (s'.aiText.trigger == GameOverLose <==> s.humanScore <= s.aiScore)
    ensures !GameOver(s) ==>
      && s'.roundCount == s.roundCount + 1 && s'.lastResult == None && s'.roundType == nextType
      && s'.aiText == s.aiText
  {
    if GameOver(s) then
      var trigger := if Winner(s) == Human then GameOverWin else GameOverLose;
      s.(gameActive := false,
         aiText := Request(trigger, FinalScore(s.humanScore, s.aiScore), s.humanScore, s.aiScore))
    else
      s.(roundCount := s.roundCount + 1, roundType := nextType, lastResult := None)
  }

  /** The session state of one browser tab, updated in place by the game's handlers. */
  class Session {
    var roundCount: nat
    var humanScore: nat
    var aiScore: nat
    var gameActive: bool
    var currentRoundType: RoundType
    var lastResult: Option<Verdict>
    var userHistory: seq<Number>
    var aiText: Commentary

    /** The session's fields as one value. */
    function Snapshot(): State
      reads this
    {
      State(roundCount, humanScore, aiScore, gameActive, currentRoundType, lastResult, userHistory, aiText)
    }

    /** First visit: the session is set up with the round type drawn as `firstType`. */
    constructor (firstType: RoundType)
      ensures Snapshot() == Init(firstType)
      ensures roundCount == 1 && humanScore == 0 && aiScore == 0 && gameActive
      ensures lastResult == None && userHistory == [] && currentRoundType == firstType
    {
      roundCount := 1;
      humanScore := 0;
      aiScore := 0;
      gameActive := true;
      currentRoundType := firstType;
      lastResult := None;
      aiText := Request(Welcome, Note("Game Start"), 0, 0);
      userHistory := [];
    }

    /** "Rematch": everything is thrown away and the session starts over with `firstType`. */
    method Reset(firstType: RoundType)
      modifies this
      ensures Snapshot() == Init(firstType)
      ensures roundCount == 1 && humanScore == 0 && aiScore == 0 && gameActive
      ensures lastResult == None && userHistory == [] && currentRoundType == firstType
    {
      roundCount := 1;
      humanScore := 0;
      aiScore := 0;
      gameActive := true;
      currentRoundType := firstType;
      lastResult := None;
      aiText := Request(Welcome, Note("Game Start"), 0, 0);
      userHistory := [];
    }

    /** Pattern Trap on the session: judged against the history before this move,
        then the move is appended to the history whatever the outcome. */
    method PlayPatternTrap(choice: Number, guess: Number) returns (v: Verdict)
      modifies this`userHistory
      ensures v == PatternTrap(old(userHistory), choice, guess)
      ensures userHistory == old(userHistory) + [choice]
    {
      var history := userHistory;
      if |history| > 0 && history[|history| - 1] == choice {
        v := Verdict(AiWin, "I knew you'd get stuck in a loop! Repetition is predictable.");
      } else if guess == choice {
        v := Verdict(AiWin, "Pure prediction. I'm in your head, dost!");
      } else {
        v := Verdict(HumanWin, "Nice move. You broke the pattern.");
      }
      userHistory := userHistory + [choice];
    }

    /** A button press in the current round (only offered while the match runs and
        no result is pending): dispatch to the round's evaluator, score it, keep it. */
    method HandleTurn(move: Move, draw: Number)
      requires gameActive && lastResult.None? && Fits(currentRoundType, move)
      modifies this
      ensures Snapshot() == Turn(old(Snapshot()), move, draw)
      ensures var o := Evaluate(old(Snapshot()), move, draw).outcome;
        && aiScore == old(aiScore) + (if o == AiWin then 1 else 0)
        && humanScore == old(humanScore) + (if o == HumanWin then 1 else 0)
      ensures lastResult == Some(Evaluate(old(Snapshot()), move, draw))
      ensures roundCount == old(roundCount) && gameActive && currentRoundType == old(currentRoundType)
      ensures userHistory == if old(currentRoundType) == Pattern then old(userHistory) + [move.n] else old(userHistory)
    {
      var verdict: Verdict;
      match currentRoundType {
        case Pattern =>
          verdict := PlayPatternTrap(move.n, draw);
        case Authority =>
          verdict := AuthorityChallenge(move.stance);
        case Instinct =>
          verdict := InstinctRound(move.n, draw);
      }

      if verdict.outcome == AiWin {
        aiScore := aiScore + 1;
        aiText := Request(Reaction(AiWin), Note(verdict.reason), humanScore, aiScore);
      } else if verdict.outcome == HumanWin {
        humanScore := humanScore + 1;
        aiText := Request(Reaction(HumanWin), Note(verdict.reason), humanScore, aiScore);
      } else {
        aiText := Request(Reaction(Draw), Note("It was a draw."), humanScore, aiScore);
      }

      lastResult := Some(verdict);
    }

    /** "Next Round" (only offered while the match runs and a result is pending):
        end the match or move on to a round of type `nextType`. */
    method NextRound(nextType: RoundType)
      requires gameActive && lastResult.Some?
      modifies this
      ensures Snapshot() == Advance(old(Snapshot()), nextType)
      ensures humanScore == old(humanScore) && aiScore == old(aiScore) && userHistory == old(userHistory)
      ensures !gameActive <==> GameOver(old(Snapshot()))
      ensures !gameActive ==> roundCount == old(roundCount) && lastResult == old(lastResult)
      ensures gameActive ==> roundCount == old(roundCount) + 1 && lastResult == None && currentRoundType == nextType
    {
      if humanScore >= 3 || aiScore >= 3 || roundCount > 5 {
        gameActive := false;
        var winner := if humanScore > aiScore then Human else Ai;
        aiText := Request(if winner == Human then GameOverWin else GameOverLose,
                          FinalScore(humanScore, aiScore), humanScore, aiScore);
      } else {
        roundCount := roundCount + 1;
        currentRoundType := nextType;
        lastResult := None;
      }
    }
  }
}

/**
 What holds of every session the player can reach by clicking. The page only
 offers a move while the match runs and no result is pending, "Next Round"
 only while a result is pending, and "Rematch?" only on the game-over screen;
 `Step` is one click under those rules and `Run` a whole sequence of them.
 */
module EngineProperties {
  import opened RoundRules
  import opened RoundEngine

  /** One click of the player, with the random draws it brings along. */
  datatype Event =
    | Play(move: Move, draw: Number)     // a round button, with the AI's pick for that round
    | Next(nextType: RoundType)          // "Next Round", with the round type drawn for the next round
    | Rematch(firstType: RoundType)      // "Rematch?", with the round type drawn for the new match

  /** The effect of one click, or None when the page does not offer that button. */
  function Step(s: State, e: Event): Option<State>
  {
    match e
    case Play(m, d) =>
      if s.gameActive && s.lastResult.None? && Fits(s.roundType, m) then Some(Turn(s, m, d)) else None
    case Next(t) =>
      if s.gameActive && s.lastResult.Some? then Some(Advance(s, t)) else None
    case Rematch(t) =>
      if !s.gameActive then Some(Init(t)) else None
  }

  /** The session after a sequence of clicks, or None if one of them was not on offer. */
  function Run(s: State, events: seq<Event>): Option<State>
    decreases |events|
  {
    if events == [] then Some(s)
    else
      match Step(s, events[0])
      case None => None
      case Some(next) => Run(next, events[1..])
  }

  /** Rounds played so far in the match: the rounds before the current one,
      plus the current one once its result is in. */
  function Played(s: State): int
  {
    s.roundCount - 1 + (if s.lastResult.Some? then 1 else 0)
  }

  /** The invariant of every reachable session. */
  predicate Consistent(s: State)
  {
    && 1 <= s.roundCount <= 6
    && s.humanScore <= 3 && s.aiScore <= 3
    && !(s.humanScore == 3 && s.aiScore == 3)
    // a round awards at most one point
    && s.humanScore + s.aiScore <= Played(s)
    // a move is only offered while nobody has three points
    && (s.gameActive && s.lastResult.None? ==> s.humanScore < 3 && s.aiScore < 3)
    // a match only stops in "Next Round", with its last result still on screen
    && (!s.gameActive ==> s.lastResult.Some? && GameOver(s))
  }

  lemma InitIsConsistent(firstType: RoundType)
    ensures Consistent(Init(firstType))
  {
  }

  /** Every click the page offers keeps the invariant. */
  lemma StepKeepsConsistent(s: State, e: Event)
    requires Consistent(s)
    ensures Step(s, e).Some? ==> Consistent(Step(s, e).value)
  {
  }

  lemma {:induction false} RunKeepsConsistent(s: State, events: seq<Event>)
    requires Consistent(s)
    ensures Run(s, events).Some? ==> Consistent(Run(s, events).value)
    decreases |events|
  {
    if events != [] {
      StepKeepsConsistent(s, events[0]);
      var next := Step(s, events[0]);
      if next.Some? {
        RunKeepsConsistent(next.value, events[1..]);
      }
    }
  }

  /** In every session reachable from a fresh match: at most six rounds, at most
      three points a side, and a match is inactive only once it is over. */
  lemma ReachableSessionsAreBounded(firstType: RoundType, events: seq<Event>)
    requires Run(Init(firstType), events).Some?
    ensures var s := Run(Init(firstType), events).value;
      && 1 <= s.roundCount <= 6
      && s.humanScore <= 3 && s.aiScore <= 3
      && (!s.gameActive ==> GameOver(s))
  {
    InitIsConsistent(firstType);
    RunKeepsConsistent(Init(firstType), events);
  }

  /** At the end of a reachable match: whoever reached three points is the winner,
      and a level score can only come from the round limit, which awards it to the AI. */
  lemma FinalVerdict(s: State)
    requires Consistent(s) && !s.gameActive
    ensures s.humanScore == 3 ==> Winner(s) == Human
    ensures s.aiScore == 3 ==> Winner(s) == Ai
    ensures s.humanScore == s.aiScore ==> s.roundCount == 6 && Winner(s) == Ai
  {
  }

  /** The number of round-button clicks in a sequence. */
  function Plays(events: seq<Event>): nat
    decreases |events|
  {
    if events == [] then 0 else (if events[0].Play? then 1 else 0) + Plays(events[1..])
  }

  predicate NoRematch(events: seq<Event>)
  {
    forall i :: 0 <= i < |events| ==> !events[i].Rematch?
  }

  /** Within one match every accepted round-button click plays exactly one round. */
  lemma {:induction false} RunCountsRounds(s: State, events: seq<Event>)
    requires NoRematch(events) && Run(s, events).Some?
    ensures Played(Run(s, events).value) == Played(s) + Plays(events)
    decreases |events|
  {
    if events != [] {
      var next := Step(s, events[0]).value;
      assert NoRematch(events[1..]) by {
        forall i | 0 <= i < |events[1..]| ensures !events[1..][i].Rematch? {
          assert events[1..][i] == events[i + 1];
        }
      }
      RunCountsRounds(next, events[1..]);
    }
  }

  /** A match lasts at most six rounds (although the page labels them "Round n / 5"). */
  lemma AtMostSixRounds(firstType: RoundType, events: seq<Event>)
    requires NoRematch(events) && Run(Init(firstType), events).Some?
    ensures Plays(events) <= 6
  {
    InitIsConsistent(firstType);
    RunKeepsConsistent(Init(firstType), events);
    RunCountsRounds(Init(firstType), events);
  }

  /** A Pattern Trap opening: the player presses 2, the AI draws 2 and wins;
      "Next Round" then starts round 2 with nothing pending. */
  lemma PatternOpening(nextType: RoundType)
    ensures var s1 := Turn(Init(Pattern), Pick(2), 2);
      && s1.lastResult.value.outcome == AiWin && s1.aiScore == 1 && s1.history == [2]
      && var s2 := Advance(s1, nextType);
      s2.gameActive && s2.roundCount == 2 && s2.lastResult == None
  {
  }

  /** Six drawn Instinct Rounds, each followed by "Next Round": round 5 still
      moves on to a sixth round, the match ends only after it, and the level
      0-0 score goes to the AI. */
  lemma SixDrawsEndInAiWin()
    ensures var play, next := Play(Pick(1), 1), Next(Instinct);
      var final := Run(Init(Instinct), [play, next, play, next, play, next, play, next, play, next, play, next]);
      && final.Some? && final.value.roundCount == 6 && !final.value.gameActive
      && final.value.humanScore == 0 && final.value.aiScore == 0
      && Winner(final.value) == Ai && final.value.aiText.trigger == GameOverLose
  {
    var play, next := Play(Pick(1), 1), Next(Instinct);
    var events := [play, next, play, next, play, next, play, next, play, next, play, next];
    var s0 := Init(Instinct);
    var s1 := Advance(Turn(s0, Pick(1), 1), Instinct);
    var s2 := Advance(Turn(s1, Pick(1), 1), Instinct);
    var s3 := Advance(Turn(s2, Pick(1), 1), Instinct);
    var s4 := Advance(Turn(s3, Pick(1), 1), Instinct);
    var s5 := Advance(Turn(s4, Pick(1), 1), Instinct);
    var s6 := Advance(Turn(s5, Pick(1), 1), Instinct);
    assert s5.roundCount == 6 && s5.gameActive;
    assert Run(s0, events) == Run(s1, events[2..]);
    assert Run(s1, events[2..]) == Run(s2, events[4..]);
    assert Run(s2, events[4..]) == Run(s3, events[6..]);
    assert Run(s3, events[6..]) == Run(s4, events[8..]);
    assert Run(s4, events[8..]) == Run(s5, events[10..]);
    assert Run(s5, events[10..]) == Run(s6, []);
  }

  /** Three Authority Challenges in which the player defies the AI: the third
      "Next Round" ends the match, awarded to the player. */
  lemma ThreeDefiancesWin()
    ensures var play, next := Play(Answer(Defy), 1), Next(Authority);
      var final := Run(Init(Authority), [play, next, play, next, play, next]);
      && final.Some? && !final.value.gameActive && final.value.roundCount == 3
      && final.value.humanScore == 3 && final.value.aiScore == 0
      && Winner(final.value) == Human && final.value.aiText.trigger == GameOverWin
  {
    var play, next := Play(Answer(Defy), 1), Next(Authority);
    var events := [play, next, play, next, play, next];
    var s0 := Init(Authority);
    var s1 := Advance(Turn(s0, Answer(Defy), 1), Authority);
    var s2 := Advance(Turn(s1, Answer(Defy), 1), Authority);
    var s3 := Advance(Turn(s2, Answer(Defy), 1), Authority);
    assert Run(s0, events) == Run(s1, events[2..]);
    assert Run(s1, events[2..]) == Run(s2, events[4..]);
    assert Run(s2, events[4..]) == Run(s3, []);
  }
}

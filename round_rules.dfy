/**
 The three mini-game evaluators of "Outsmart Me If You Can": Pattern Trap,
 Authority Challenge and Instinct Round. Each one turns the human's button
 press (and, where the game draws one at random, the AI's pick) into a
 verdict: who won the round and the line shown for it.

 The random draws of the game are parameters here, so every evaluator is a
 function of its inputs.
 */
module RoundRules {

  datatype Option<T> = None | Some(value: T)

  /** The three kinds of round the game picks from. */
  datatype RoundType = Pattern | Authority | Instinct

  /** The winner tag of one round: "HUMAN_WIN", "AI_WIN" or "DRAW". */
  datatype Outcome = HumanWin | AiWin | Draw

  /** The two buttons of the Authority Challenge: RED defies the AI, BLUE obeys it. */
  datatype Stance = Defy | Obey

  /** A numbered button, 1, 2 or 3; in the Instinct Round 1 = Fire, 2 = Grass, 3 = Water. */
  type Number = n: int | 1 <= n <= 3 witness 1

  /** What an evaluator hands back: the winner tag and the reason shown to the player. */
  datatype Verdict = Verdict(outcome: Outcome, reason: string)

  /** The same round seen from the other side of the table. */
  function Swap(o: Outcome): Outcome
  {
    match o
    case HumanWin => AiWin
    case AiWin => HumanWin
    case Draw => Draw
  }

  // ---------------------------------------------------------------- Pattern Trap

  /** The player pressed the same number as on their last recorded Pattern Trap move. */
  predicate Repeats(history: seq<Number>, choice: Number)
  {
    |history| > 0 && history[|history| - 1] == choice
  }

  /** Pattern Trap, evaluated against the history as it stood BEFORE this move.
      A repeated move is always caught; otherwise the AI wins only if its random
      `guess` hits the player's number. (`guess` is only consulted when there
      is no repetition, as the game draws it only then.) */
  function PatternTrap(history: seq<Number>, choice: Number, guess: Number): (r: Verdict)
    ensures r.outcome != Draw
    ensures Repeats(history, choice) ==> r.outcome == AiWin
    ensures r.outcome == HumanWin <==> !Repeats(history, choice) && guess != choice
  {
    if Repeats(history, choice) then
      Verdict(AiWin, "I knew you'd get stuck in a loop! Repetition is predictable.")
    else if guess == choice then
      Verdict(AiWin, "Pure prediction. I'm in your head, dost!")
    else
      Verdict(HumanWin, "Nice move. You broke the pattern.")
  }

  /** Only the last recorded move matters to the prediction: two histories that
      end the same way (or are both empty) give the same verdict. */
  lemma PatternTrapReadsOnlyLastMove(h1: seq<Number>, h2: seq<Number>, choice: Number, guess: Number)
    requires |h1| == 0 <==> |h2| == 0
    requires |h1| > 0 ==> h1[|h1| - 1] == h2[|h2| - 1]
    ensures PatternTrap(h1, choice, guess) == PatternTrap(h2, choice, guess)
  {
  }

  /** Once a move is recorded, pressing the same number again loses, whatever the AI draws. */
  lemma PatternTrapPunishesRepeat(history: seq<Number>, choice: Number, guess: Number)
    ensures PatternTrap(history + [choice], choice, guess).outcome == AiWin
  {
    assert Repeats(history + [choice], choice);
  }

  // --------------------------------------------------------- Authority Challenge

  /** The advice the AI gives in the Authority Challenge: "Press the BLUE button to win". */
  const Advice: Stance := Obey

  /** Authority Challenge: the AI's advice is always the losing move. */
  function AuthorityChallenge(choice: Stance): (r: Verdict)
    ensures r.outcome != Draw
    ensures r.outcome == AiWin <==> choice == Advice
  {
    if choice == Obey then
      Verdict(AiWin, "Never trust a bot, beta. I tricked you!")
    else
      Verdict(HumanWin, "Smart! You saw through my bluff.")
  }

  // -------------------------------------------------------------- Instinct Round

  /** The element each button stands for in the Instinct Round. */
  function ElementName(n: Number): string
  {
    if n == 1 then "Fire" else if n == 2 then "Grass" else "Water"
  }

  /** Cyclic dominance: each element beats the next one round the cycle
      Fire -> Grass -> Water -> Fire. */
  predicate Beats(a: Number, b: Number)
  {
    b == a % 3 + 1
  }

  /** Of two different elements exactly one beats the other; no element beats itself. */
  lemma BeatsIsTournament(a: Number, b: Number)
    ensures !Beats(a, a)
    ensures a != b ==> (Beats(a, b) <==> !Beats(b, a))
  {
  }

  /** Instinct Round: the player's element against the AI's randomly drawn one. */
  function InstinctRound(choice: Number, aiMove: Number): (r: Verdict)
    ensures r.outcome == Draw <==> choice == aiMove
    ensures r.outcome == HumanWin <==> Beats(choice, aiMove)
    ensures r.outcome == AiWin <==> Beats(aiMove, choice)
  {
    if choice == aiMove then
      Verdict(Draw, "We both picked " + ElementName(aiMove) + ". Dull... Go again!")
    else if (choice == 1 && aiMove == 2) || (choice == 2 && aiMove == 3) || (choice == 3 && aiMove == 1) then
      Verdict(HumanWin, "My " + ElementName(aiMove) + " got destroyed by your " + ElementName(choice) + "!")
    else
      Verdict(AiWin, "My " + ElementName(aiMove) + " crushed your " + ElementName(choice) + "!")
  }

  /** Exchanging the two elements exchanges the winner. */
  lemma InstinctRoundIsSymmetric(choice: Number, aiMove: Number)
    ensures InstinctRound(aiMove, choice).outcome == Swap(InstinctRound(choice, aiMove).outcome)
  {
  }
}

# Outsmart Me If You Can — the round engine in Dafny

"Outsmart Me If You Can" is a small browser mind-game. A human plays short
rounds against a scripted opponent ("PsychoBot"), and a language-model call
adds taunting commentary. This project models the part of the game with
rules: the round engine.

- **Session state**: the round number, both scores, whether the match is
  still active, the current round type, the pending round result and the
  Pattern Trap move history.
- **Three evaluators**:
  - *Pattern Trap*: a repeated move is always caught. Otherwise the AI wins
    only when its random guess hits the player's number.
  - *Authority Challenge*: the AI advises BLUE (obey), and obeying always
    loses.
  - *Instinct Round*: Fire beats Grass, Grass beats Water and Water beats
    Fire. Equal picks are a draw.
- **Turn handler**: it scores a round and stores its result.
- **"Next Round"**: it either ends the match or starts the next round.
- **Rematch**: it starts a new match.

The files are laid out as follows:

- `round_rules.dfy` (module `RoundRules`) holds the evaluators as pure
  functions. It also defines `Beats`, an independent arithmetic statement of
  the Fire/Grass/Water cycle, which `InstinctRound` is proved against.
- `round_engine.dfy` (module `RoundEngine`) holds two views of the session:
  - a `State` value, with `Init`, `Turn` and `Advance` stating what each
    operation does to it;
  - a class `Session` whose fields the methods update in place, as the game
    does. Each method is tied to the matching function through
    `Snapshot()`.
- `engine_properties.dfy` (module `EngineProperties`) models clicks. A click
  is a move, "Next Round" or "Rematch?", and the page offers each only in
  certain states. This module proves an invariant of every reachable session
  by induction over click sequences, and it replays the end-to-end scenarios.

The random draws are parameters:

- the AI's guess in Pattern Trap;
- the AI's element in Instinct Round;
- the round type chosen at the start and at every "Next Round".

The commentary service is modelled by the request the engine sends it: the
event tag, the context and the scores at the time of the call. The engine
never reads the reply.

Some behaviour of the code is easy to miss:

- **Six rounds, not five.** The page labels rounds "Round n / 5". But the
  match ends only when "Next Round" finds `round_count > 5`, so round 5
  moves on to a sixth round. `AtMostSixRounds` and `SixDrawsEndInAiWin`
  state this.
- **A tie goes to the AI.** The winner is decided with a strict `>`. A tie is
  only possible at the round limit (`FinalVerdict`).
- **Three further details of the code that the model keeps:**
  - There are no error values. Moves and "Next Round" are gated by which
    buttons the page shows. These gates are preconditions of
    `Session.HandleTurn` and `Session.NextRound`, and in `Step` a click the
    page does not offer yields `None`.
  - A Pattern Trap move is appended to the history after the prediction is
    made. The prediction reads the old history.
  - A draw is reported to the commentary service with the context
    "It was a draw.", not with the round's reason text.

## Model

| member | source | states |
|---|---|---|
| RoundRules.PatternTrap | outsmart_me_if_you_can.py:136-160 | never a draw; a move equal to the last recorded one is an AI win whatever the guess; the human wins exactly when the move differs from both the last recorded move and the AI's guess |
| RoundRules.PatternTrapReadsOnlyLastMove | outsmart_me_if_you_can.py:145 | the prediction depends on the history only through its last entry, or its emptiness |
| RoundRules.PatternTrapPunishesRepeat | outsmart_me_if_you_can.py:145-159 | after a move has been recorded, playing the same number again is always an AI win |
| RoundRules.AuthorityChallenge | outsmart_me_if_you_can.py:162-179 | never a draw; the AI wins exactly when the player follows its advice (OBEY, the BLUE button it recommends) |
| RoundRules.BeatsIsTournament | outsmart_me_if_you_can.py:185 | in the Fire/Grass/Water cycle no element beats itself, and of two different elements exactly one beats the other |
| RoundRules.InstinctRound | outsmart_me_if_you_can.py:181-203 | a draw exactly when both picks are equal; a human win exactly when the player's element beats the AI's in the cycle; an AI win exactly when the AI's element beats the player's |
| RoundRules.InstinctRoundIsSymmetric | outsmart_me_if_you_can.py:191-201 | swapping the two picks swaps human win and AI win and keeps a draw |
| RoundEngine.Init | outsmart_me_if_you_can.py:103-112 | a new match is round 1, 0-0, active, with nothing pending, an empty history, the drawn round type and a WELCOME request |
| RoundEngine.Evaluate | outsmart_me_if_you_can.py:205-214 | the round type picks the evaluator: a Pattern round is `PatternTrap` of the history before the move and the AI's draw, an Authority round is `AuthorityChallenge` of the stance, an Instinct round is `InstinctRound` of the pick and the AI's draw; only the Instinct Round can draw, exactly when the picks are equal |
| RoundEngine.Turn | outsmart_me_if_you_can.py:205-227 | an AI win adds exactly 1 to the AI score only, a human win adds exactly 1 to the human score only, and a draw changes neither; the verdict becomes pending; round, active flag and round type are untouched; the history grows by the move only in a Pattern round; the commentary tag is the outcome |
| RoundEngine.Advance | outsmart_me_if_you_can.py:119-130 | the match ends exactly when a score is at least 3 or the round is past 5; on ending, scores, round and pending result stay, and the game-over tag is WIN exactly when the human score is strictly higher; otherwise the round goes up by 1, nothing is pending and the drawn type is set; scores and history never change |
| RoundEngine.Session.constructor | outsmart_me_if_you_can.py:103-112 | the session starts as `Init(firstType)` |
| RoundEngine.Session.Reset | outsmart_me_if_you_can.py:114-117 | after a rematch the session is `Init(firstType)`, whatever it held before |
| RoundEngine.Session.PlayPatternTrap | outsmart_me_if_you_can.py:136-160 | the verdict is `PatternTrap` of the history before the move; afterwards the history is the old history plus the move, whatever the outcome |
| RoundEngine.Session.HandleTurn | outsmart_me_if_you_can.py:205-227 | the new session is `Turn` of the old one; the score changes, the pending result, the untouched fields and the history update are spelled out |
| RoundEngine.Session.NextRound | outsmart_me_if_you_can.py:119-130 | the new session is `Advance` of the old one; it becomes inactive exactly when the match is over; otherwise the round goes up by 1 and nothing is pending |
| EngineProperties.InitIsConsistent | outsmart_me_if_you_can.py:103-112 | a new match satisfies the session invariant |
| EngineProperties.StepKeepsConsistent | outsmart_me_if_you_can.py:250-319 | every click the page offers keeps the session invariant |
| EngineProperties.RunKeepsConsistent | outsmart_me_if_you_can.py:250-319 | any sequence of offered clicks keeps the session invariant |
| EngineProperties.ReachableSessionsAreBounded | outsmart_me_if_you_can.py:119-130 | every session reachable from a new match has round count from 1 to 6 and both scores at most 3, and it is inactive only when the match is over |
| EngineProperties.FinalVerdict | outsmart_me_if_you_can.py:119-126 | in a finished reachable match, a human score of 3 makes the human the winner and an AI score of 3 makes the AI the winner; a level score happens only at round 6 and goes to the AI |
| EngineProperties.RunCountsRounds | outsmart_me_if_you_can.py:119-130 | within one match, the rounds played go up by exactly the number of accepted move clicks |
| EngineProperties.AtMostSixRounds | outsmart_me_if_you_can.py:120 | one match accepts at most six moves |
| EngineProperties.PatternOpening | outsmart_me_if_you_can.py:136-160 | a Pattern round where the player and the AI both pick 2 is an AI win (1-0, history [2]), and "Next Round" starts round 2 with nothing pending |
| EngineProperties.SixDrawsEndInAiWin | outsmart_me_if_you_can.py:119-130 | six drawn Instinct rounds are all played; the match ends after round 6 at 0-0 and is awarded to the AI (GAME_OVER_LOSE) |
| EngineProperties.ThreeDefiancesWin | outsmart_me_if_you_can.py:119-126 | three defied Authority Challenges end the match after round 3 at 3-0, awarded to the human (GAME_OVER_WIN) |

## Left out

- The commentary service (`get_ai_commentary`, lines 54-99) is not called. The
  prompt, the network request and the fallback text are out of scope. The
  model records each request (tag, context, scores) in the session's `aiText`
  field. The engine never reads the reply.
- `random.choice` (lines 109, 129, 151, 187) is not modelled. The drawn
  values are parameters. Claims about frequencies, such as "50/50", are not
  modelled.
- Page rendering, styling and button layout (lines 13-51, 231-323) are not
  modelled. What they decide is kept: which buttons are offered in which
  state (`Fits`, the requires clauses, `Step`). Also kept is the game-over
  banner's `>` comparison, which is the same as `Winner`.
- The `'round_count' not in st.session_state` guard of `init_game` is not
  modelled. It makes the call on every page rerun a no-op. The fields of
  `Session` always exist, so the first call is the constructor and a rerun
  changes nothing.
- `load_dotenv` and reading the API key from the environment (lines 8-10, 59)
  are not modelled. They are process configuration.
- `handle_turn` has a fall-through for a round type that is none of the
  three, and the evaluators can receive a choice of the wrong kind (a string
  in a number round). Neither can happen from the page, so they are not
  modelled. `RoundType` is closed, and `HandleTurn` requires a move that
  fits the round.
- The reason texts are kept as literals. No property depends on their
  wording.

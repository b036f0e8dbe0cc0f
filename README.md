# Tabular Q-learning chess agent: a Dafny model of the learning core

This project models the learning core of a chess agent trained by tabular
Q-learning against a greedy material-counting opponent. It covers four pieces:

- the reward environment (`chess_env.py`);
- the Q-learning agent (`agents/q_learning_bot.py`);
- the greedy opponent (`agents/value_bot.py`);
- the training loop (`train.py`).

It then proves properties of that model.

The rules of chess come from the python-chess library, which is not part of
this model. They are an oracle: the `Chess.Rules` value carries the starting
position, move generation, move application, the terminal tests and FEN
conversion. Every operation receives it as a parameter, and nothing is assumed
about it.

A position is reduced to what the core reads directly:
- the number of pieces of each type per side;
- the side to move;
- an opaque remainder holding squares, castling rights, clocks and history.

python-chess `Board` objects are shared by reference between the environment,
the agents and the loop. So `Chess.Board` is a class with one mutable
position, and the aliasing in `get_move` and `train` is modelled as it is
written.

Files:

- `chess.dfy`: the `Option` wrapper, and the rules-engine interface and
  `Board`.
- `chess_env.dfy`: the piece values, material, the step reward, and the
  `ChessEnvironment` class.
- `q_table.dfy`: the Q-table as a value.
  - A row is an insertion-ordered sequence of (UCI move, value) entries.
    Python dicts iterate in insertion order, and ties in `choose_action` are
    broken by that order.
  - It defines `row.get`, `row[a] = v`, `max`, and the Bellman update
    `Bellman` as a function.
- `q_learning_bot.dfy`: the state key, the exploration decay, and the
  `QLearningBot` class (`get_simplified_state`, `choose_action`, `update`,
  `decay_epsilon`).
- `value_bot.dfy`: the greedy choice and the `ValueBot` class.
- `train.py`'s loop, in `train.dfy`:
  - A played game is a sequence of half-moves.
  - `Replay` is the table obtained by applying the updates for a sequence of
    learner transitions in order.
  - `Train` proves three things about every episode. It is a game from the
    starting position, played until the loop stops. Each learner move is
    `choose_action`'s ε-greedy choice on the table the earlier moves left,
    with ε decayed once per earlier episode and the next unused random draw.
    The final table is the replay of every learner move of every episode.

The functions that the contracts below are proved equal to, and the source
lines each one defines:

- `ChessEnv.Material`: `get_material_value` (chess_env.py:23-28).
- `ChessEnv.StepReward`: the reward of `step` (chess_env.py:30-52).
- `QTable.Bellman`: `update` on the table (agents/q_learning_bot.py:62-72).
- `QTable.FirstBest`: the exploit scan of `choose_action`
  (agents/q_learning_bot.py:49-58).
- `QLearningAgent.Key`: `get_simplified_state`
  (agents/q_learning_bot.py:19-34).
- `QLearningAgent.Decayed` and `QLearningAgent.DecayedN`: one and n calls of
  `decay_epsilon` (agents/q_learning_bot.py:74-77).
- `QLearningAgent.EpsilonGreedyChoice`: `choose_action` on a row
  (agents/q_learning_bot.py:36-60).
- `Training.Replay`: the table after the `update` calls of a sequence of
  learner moves (train.py:33-36).

Two points where the source's names and comments suggest more than its code
does. The model follows the code in both:

- **Exploration floor.** The `epsilon_min` field
  (agents/q_learning_bot.py:16) suggests a floor on ε. The guard at
  agents/q_learning_bot.py:76 is tested *before* the multiply, so the last
  decay can land just below 0.05: `QLearningAgent.DecayCanUndershoot`
  exhibits ε = 0.05001. ε then stays there forever (`DecayFrozenAtFloor`).
  The bound that does hold is 0.05·0.9995 (`DecayStaysAboveUndershoot`).
- **Opponent environment.** The comment "Reset the environment board state
  after checking" (agents/value_bot.py:38) suggests that the environment's
  board is restored. Instead, every simulated move repoints the shared
  environment at a new board (agents/value_bot.py:28-30), and `set_fen` is
  then applied to the last of those boards. The environment therefore ends
  on a new board holding the caller's position rebuilt from its FEN.
  `ValueBot.GetMove` states exactly that; the environment's original board
  is not restored.

## Model

| member | source | states |
|---|---|---|
| ChessEnv.MaterialFormula | chess_env.py:10-16 | material is pawns + 3·knights + 3.1·bishops + 5·rooks + 9·queens; the king has no weight |
| ChessEnv.MaterialNonNegative | chess_env.py:10-16 | material is never negative |
| ChessEnv.MaterialIgnoresKing | chess_env.py:10-16 | changing the king counts of the two sides, independently, leaves material unchanged |
| ChessEnv.QuietMoveScoresZero | chess_env.py:30-52 | a move that changes no piece counts and does not mate has reward 0; stalemate and insufficient material add nothing |
| ChessEnv.QuietMateScoresBonus | chess_env.py:46-50 | a mating move that changes no piece counts has reward exactly 100 |
| ChessEnv.PawnCaptureScoresOne | chess_env.py:36-46 | capturing one opposing pawn, with nothing else changing and no mate, has reward +1 from the mover's side |
| ChessEnv.ChessEnvironment.constructor | chess_env.py:8-9 | a new environment owns a fresh board in the starting position |
| ChessEnv.ChessEnvironment.Reset | chess_env.py:18-21 | the same board object is returned, back in the starting position |
| ChessEnv.ChessEnvironment.GetMaterialValue | chess_env.py:23-28 | the loop over the piece-value table computes the material of the colour on the current board |
| ChessEnv.ChessEnvironment.Step | chess_env.py:30-56 | the move is pushed on the environment's own board (which is returned); the reward is the mover's balance change plus 100 on checkmate; done is the game-over test after the move |
| QTable.Lookup | agents/q_learning_bot.py:67 | the lookup is absent exactly when no entry of the row has the action |
| QTable.LookupFindsFirst | agents/q_learning_bot.py:67 | the lookup returns the value of the first entry with that action |
| QTable.Put | agents/q_learning_bot.py:72 | after `row[a] = v` the row maps a to v; an existing key keeps its place and the length; a new key is appended at the end; the order of earlier keys is kept |
| QTable.PutOther | agents/q_learning_bot.py:72 | writing a leaves every other action's lookup unchanged |
| QTable.PutKeepsDistinct | agents/q_learning_bot.py:72 | writing keeps the row's actions pairwise distinct (a well-formed dict) |
| QTable.PutSameValue | agents/q_learning_bot.py:72 | writing back the stored value leaves the row unchanged |
| QTable.MaxValue | agents/q_learning_bot.py:69 | `max(values)` of a non-empty row is one of its values and at least every value |
| QTable.BellmanUnfold | agents/q_learning_bot.py:67-72 | creating the missing row with `setdefault` before reading next_max does not change next_max, even when next_state equals state |
| QTable.BellmanWrites | agents/q_learning_bot.py:67-72 | the new Q(s, a) is the backup of the old Q(s, a), with 0 for a missing entry, towards reward + γ·next_max, where next_max is read from the table before the update |
| QTable.BellmanFrame | agents/q_learning_bot.py:67-72 | only Q(s, a) changes: the state set grows by s only; other rows are untouched; other actions keep their values; nothing is removed; the row's order is kept |
| QTable.BellmanFixedPoint | agents/q_learning_bot.py:71-72 | when the target equals the current value, Q(s, a) is unchanged, and so is the whole table if the entry existed |
| QTable.BellmanFullRate | agents/q_learning_bot.py:71 | with learning rate 1 the entry becomes the target reward + γ·next_max |
| QTable.BackupBetween | agents/q_learning_bot.py:71 | with learning rate in [0, 1] the new value lies between the old value and the target |
| QTable.BellmanKeepsValid | agents/q_learning_bot.py:67-72 | the update keeps every row a well-formed dict |
| QTable.FirstBestUnique | agents/q_learning_bot.py:55-58 | at most one entry is the first legal entry of greatest value |
| QTable.FirstBestCorrect | agents/q_learning_bot.py:49-58 | the exploit scan (strict `>`, in the row's order) finds nothing exactly when no stored action is legal, and otherwise finds the first legal entry of greatest value |
| QLearningAgent.KeyParts | agents/q_learning_bot.py:19-34 | the key is (own non-king piece count, opponent non-king piece count, own legal-move count with the turn set to the agent's colour) |
| QLearningAgent.MaterialCount | agents/q_learning_bot.py:24-25 | summing over pawn, knight, bishop, rook, queen counts every piece except the king |
| QLearningAgent.KeyIgnoresTurn | agents/q_learning_bot.py:27-32 | the key does not depend on whose turn it is in the position |
| QLearningAgent.DecayNeverIncreases | agents/q_learning_bot.py:74-77 | one decay never raises a non-negative ε, never makes it negative, and strictly lowers it above the floor |
| QLearningAgent.DecayFrozenAtFloor | agents/q_learning_bot.py:74-77 | at or below εmin, decay changes nothing, however often it is applied |
| QLearningAgent.DecayedNNonIncreasing | agents/q_learning_bot.py:74-77 | repeated decay gives a non-increasing, non-negative sequence |
| QLearningAgent.DecayStaysAboveUndershoot | agents/q_learning_bot.py:74-77 | from a start above εmin, ε stays above εmin·0.9995 |
| QLearningAgent.DecayCanUndershoot | agents/q_learning_bot.py:76-77 | some ε above the floor decays to below it |
| QLearningAgent.EpsilonGreedyChoiceCorrect | agents/q_learning_bot.py:42-60 | the choice function always gives a legal move; below ε the drawn move; otherwise the first legal stored action of strictly greatest value, or the drawn move when no stored action is legal |
| QLearningAgent.EpsilonGreedyUnique | agents/q_learning_bot.py:42-60 | any two moves that meet that description are the same move, so the choice is a function of the row, ε and the draws |
| QLearningAgent.QLearningBot.constructor | agents/q_learning_bot.py:7-16 | a new agent has an empty table and the given (or default 0.1, 0.9, 0.9) rates |
| QLearningAgent.QLearningBot.GetSimplifiedState | agents/q_learning_bot.py:19-34 | computes the state key; the mobility is counted on a private copy, so the caller's board is not written |
| QLearningAgent.QLearningBot.ChooseAction | agents/q_learning_bot.py:36-60 | the loop computes the choice function on the agent's row for the board's state key, so the result is always legal; below ε it is the randomly drawn move; otherwise it is the first legal stored action of strictly greatest value, or the drawn move when no stored action is legal |
| QLearningAgent.QLearningBot.Update | agents/q_learning_bot.py:62-72 | the table becomes `Bellman` of the old table; the rates are unchanged; rows stay well-formed |
| QLearningAgent.QLearningBot.DecayEpsilon | agents/q_learning_bot.py:74-77 | ε is multiplied by 0.9995 only while above 0.05; the table and the rates are unchanged |
| ValueAgent.GreedyChoiceUnique | agents/value_bot.py:26-36 | the strict-`>` scan's choice is determined: at most one index is the first move of greatest simulated reward |
| ValueAgent.GreedyChoiceExists | agents/value_bot.py:21-36 | every non-empty move list has such a greedy choice |
| ValueAgent.ValueBot.constructor | agents/value_bot.py:9-11 | the bot keeps the given environment by reference |
| ValueAgent.ValueBot.GetMove | agents/value_bot.py:13-40 | no move exactly when there are no legal moves; otherwise the first legal move of greatest simulated reward; the caller's board is unchanged; the shared environment ends on a fresh board holding the caller's position rebuilt from its FEN |
| Training.ReplayAppend | train.py:19-45 | replaying two logs in turn is replaying their concatenation |
| Training.ReplaySnoc | train.py:33-36 | replaying one more learner move is one more `update` |
| Training.ReplayOnlyGrows | train.py:19-45 | training never removes a state or a stored action, and keeps every row well-formed |
| Training.GameExtend | train.py:24-43 | a valid half-move played from where a game stopped before it ended extends the game, and adds its learner move, if any, to the learner's moves |
| Training.PolicyExtend | train.py:25-36 | appending a learner move that is the ε-greedy choice on the current table with the next draw (or an opponent move) keeps a game following the policy |
| Training.ProgressExtend | train.py:24-43 | one more half-move keeps the loop's state: a game from the start, the table as the replay of its learner moves, each one the policy's choice, and the count of draws used |
| Training.LearnerHalfMove | train.py:25-36 | when the learner has no legal move nothing changes, no draw is used and the episode stops; otherwise it uses one draw, plays `choose_action`'s ε-greedy choice for that draw on the table and position before, and the table gets exactly that move's update |
| Training.OpponentHalfMove | train.py:37-41 | the opponent's greedy reply is pushed, or nothing when it has none |
| Training.PlayHalfMove | train.py:25-41 | one pass of the loop body keeps the loop's state; it stops only when the learner is to move and has no legal move |
| Training.PlayEpisode | train.py:20-43 | the half-moves played form a game from the reset position; every learner move is the ε-greedy choice on the table so far with the next draw; the table is the replay of the learner's moves; the episode ends on game over after at least one half-move, on a learner without moves, or at the ply bound |
| Training.TrainEpisode | train.py:19-45 | one whole episode from a fresh environment, ended as the loop ends it and following the policy with the rate before the decay, then one decay |
| Training.TrainingRunExtend | train.py:19-45 | an episode played on the table, rate and draws the earlier episodes left extends the training run |
| Training.TrainingRunEpisodes | train.py:19-45 | in a training run, every episode is a training episode after the ones before it |
| Training.Train | train.py:9-45 | the trained agent plays White with the default rates; ε is decayed once per episode; every episode is a game from the starting position played until the loop stops, in which the learner plays the ε-greedy choice on the table left by the earlier moves, with ε decayed once per earlier episode and the next unused draw; the final table is the replay of all learner moves in order |

## Left out

- Persistence is not modelled. `pickle.dump` of the table (train.py:47-52) and loading it in the play front ends are file I/O. `Train` returns the agent whose table would be saved.
- The progress bar and console output of `train.py` are not modelled.
- `play.py` and `play_gui.py` (interactive play) are not part of this model.
- The rules of chess (move generation, move application, checkmate, stalemate, insufficient material, game over, FEN) belong to python-chess and are an uninterpreted oracle. Nothing is proved about FEN round trips, so the greedy opponent's simulated rewards are stated on the position rebuilt from its FEN.
- Floating point is modelled as exact `real` arithmetic. 3.1, 0.9995, 0.1 and 0.9 are exact here, but rounded in the source.
- Randomness: `random.uniform(0, 1)` and `random.choice` are draws passed in as parameters (`u`, `pick`; in `Train` an indexed source `rng`). Their distributions are not modelled.
- PlayEpisode: each episode is bounded by a ply count `maxPlies`. The source loops until python-chess reports the game over; an abstract rules oracle cannot guarantee that this ever happens.
- Train: the default episode counts (10000 for `train()`, 20000 from the script entry) are a parameter.
- ChooseAction: requires a non-empty move list (`pick < |legalMoves|`). `random.choice` on an empty list raises an error. All three callers check for legal moves first: train.py:28-29, play.py:32-33 and play_gui.py:75-76.
- Train: the index `random.choice` draws is modelled as a natural number reduced modulo the number of legal moves. The uniform distribution is not modelled.
- Moves are identified with their UCI strings, assuming `Move.from_uci(m.uci())` is the same move. A `chess.Move` is falsy only for the null move, which is never legal, so `if move:` in `train.py` is modelled as "a move was returned".
- The unused `numpy` import has no counterpart.

/**
 * The training loop (train.py): episodes of the learner (White) against the
 * greedy opponent (Black), one Bellman update per learner move and one
 * exploration decay per episode.
 */
module Training {
  import opened Wrappers
  import opened Chess
  import opened ChessEnv
  import opened QTable
  import opened QLearningAgent
  import opened ValueAgent

  /** One draw of the random source: `random.uniform(0, 1)` and the index `random.choice` picks. */
  datatype Draw = Draw(u: real, pick: nat)

  /** A learner move as the loop observes it: the position before, the move, the position after. */
  datatype Transition = Transition(before: Position, action: Uci, after: Position)

  /** x is a legal move of colour c, committed with `step`. */
  ghost predicate LearnerMove(rules: Rules, c: Color, x: Transition) {
    && x.before.turn == c
    && x.action in rules.legalMoves(x.before)
    && x.after == rules.push(x.before, x.action)
  }

  /** The update the loop issues for transition x. */
  function Learn(rules: Rules, c: Color, t: Table, lr: real, gamma: real, x: Transition): Table {
    Bellman(t, lr, gamma, Key(rules, c, x.before), x.action,
            StepReward(rules, x.before, x.action), Key(rules, c, x.after))
  }

  /** The table after the updates for the transitions in ts, in order. */
  function Replay(rules: Rules, c: Color, t: Table, lr: real, gamma: real, ts: seq<Transition>): Table {
    if ts == [] then t
    else Learn(rules, c, Replay(rules, c, t, lr, gamma, ts[..|ts| - 1]), lr, gamma, ts[|ts| - 1])
  }

  /** Replaying two logs one after the other is replaying their concatenation. */
  lemma {:induction false} ReplayAppend(rules: Rules, c: Color, t: Table, lr: real, gamma: real,
                                        ts: seq<Transition>, us: seq<Transition>)
    ensures Replay(rules, c, t, lr, gamma, ts + us)
            == Replay(rules, c, Replay(rules, c, t, lr, gamma, ts), lr, gamma, us)
  {
    if us == [] {
      assert ts + us == ts;
    } else {
      var init := us[..|us| - 1];
      assert (ts + us)[..|ts + us| - 1] == ts + init;
      ReplayAppend(rules, c, t, lr, gamma, ts, init);
    }
  }

  /** Replaying one more transition is one more update. */
  lemma ReplaySnoc(rules: Rules, c: Color, t: Table, lr: real, gamma: real, ts: seq<Transition>, x: Transition)
    ensures Replay(rules, c, t, lr, gamma, ts + [x]) == Learn(rules, c, Replay(rules, c, t, lr, gamma, ts), lr, gamma, x)
  {
    assert (ts + [x])[..|ts|] == ts;
  }

  /** Training never removes a state or a stored action, and keeps every row a well-formed dict. */
  lemma {:induction false} ReplayOnlyGrows(rules: Rules, c: Color, t: Table, lr: real, gamma: real,
                                           ts: seq<Transition>)
    requires ValidTable(t)
    ensures var t' := Replay(rules, c, t, lr, gamma, ts);
      && ValidTable(t')
      && t.Keys <= t'.Keys
      && forall s, a :: s in t && Lookup(t[s], a).Some? ==> Lookup(t'[s], a).Some?
  {
    if ts != [] {
      var init := ts[..|ts| - 1];
      var x := ts[|ts| - 1];
      ReplayOnlyGrows(rules, c, t, lr, gamma, init);
      var mid := Replay(rules, c, t, lr, gamma, init);
      var s0, a0, r0, s1 := Key(rules, c, x.before), x.action, StepReward(rules, x.before, x.action), Key(rules, c, x.after);
      BellmanFrame(mid, lr, gamma, s0, a0, r0, s1);
      BellmanKeepsValid(mid, lr, gamma, s0, a0, r0, s1);
    }
  }

  /** One half-move of an episode, with the positions before and after it. */
  datatype HalfMove =
    | LearnerTurn(t: Transition)
    | OpponentTurn(before: Position, reply: Option<Uci>, after: Position)
  {
    function Before(): Position {
      if LearnerTurn? then t.before else before
    }
    function After(): Position {
      if LearnerTurn? then t.after else after
    }
  }

  /** The learner's transitions among the half-moves, in order. */
  function LearnerMoves(hs: seq<HalfMove>): seq<Transition> {
    if hs == [] then []
    else
      var h := hs[|hs| - 1];
      LearnerMoves(hs[..|hs| - 1]) + (if h.LearnerTurn? then [h.t] else [])
  }

  /**
   * h is a half-move the loop plays for learner colour c: a learner move, or
   * the opponent's greedy reply pushed as it is (nothing when it has none).
   */
  ghost predicate ValidHalfMove(rules: Rules, c: Color, h: HalfMove) {
    match h
    case LearnerTurn(x) => LearnerMove(rules, c, x)
    case OpponentTurn(b, reply, a) =>
      && b.turn != c
      && (reply.None? <==> rules.legalMoves(b) == [])
      && (reply.Some? ==>
            exists k :: IsGreedyChoice(rules, b, rules.legalMoves(b), k) && reply.value == rules.legalMoves(b)[k])
      && a == (if reply.Some? then rules.push(b, reply.value) else b)
  }

  /**
   * hs is a game, possibly unfinished, played by learner colour c from start
   * and standing at finish: valid half-moves, each starting where the previous
   * one ended, and no half-move after one that ended the game.
   */
  ghost predicate Game(rules: Rules, c: Color, start: Position, hs: seq<HalfMove>, finish: Position) {
    && (forall i :: 0 <= i < |hs| ==> ValidHalfMove(rules, c, hs[i]))
    && (forall i :: 0 < i < |hs| ==> hs[i].Before() == hs[i - 1].After())
    && (forall i :: 0 <= i < |hs| - 1 ==> !rules.isGameOver(hs[i].After()))
    && (hs == [] ==> finish == start)
    && (hs != [] ==> hs[0].Before() == start && hs[|hs| - 1].After() == finish)
  }

  /** Appending a valid half-move that starts where a game stopped, before it ended, extends the game. */
  lemma GameExtend(rules: Rules, c: Color, start: Position, hs: seq<HalfMove>, h: HalfMove)
    requires Game(rules, c, start, hs, h.Before())
    requires hs != [] ==> !rules.isGameOver(h.Before())
    requires ValidHalfMove(rules, c, h)
    ensures Game(rules, c, start, hs + [h], h.After())
    ensures LearnerMoves(hs + [h]) == LearnerMoves(hs) + (if h.LearnerTurn? then [h.t] else [])
  {
    var hs' := hs + [h];
    assert hs'[..|hs|] == hs && hs'[|hs|] == h;
    assert forall i :: 0 <= i < |hs| ==> hs'[i] == hs[i];
  }

  /**
   * x is the move `choose_action` makes on table t with exploration rate eps
   * and the draw d, `random.choice`'s index reduced to the legal moves.
   */
  ghost predicate PolicyMove(rules: Rules, c: Color, t: Table, eps: real, d: Draw, x: Transition) {
    var legal := rules.legalMoves(x.before);
    && legal != []
    && x.action == EpsilonGreedyChoice(RowAt(t, Key(rules, c, x.before)), eps, legal, d.u, d.pick % |legal|)
  }

  /**
   * Every learner half-move of hs is `choose_action`'s choice on the table the
   * updates of the earlier learner moves have produced from t0, with the next
   * unused draw of rng counted from firstDraw.
   */
  ghost predicate FollowsPolicy(rules: Rules, c: Color, t0: Table, lr: real, gamma: real, eps: real,
                                rng: nat -> Draw, firstDraw: nat, hs: seq<HalfMove>) {
    if hs == [] then true
    else
      var init, h := hs[..|hs| - 1], hs[|hs| - 1];
      && FollowsPolicy(rules, c, t0, lr, gamma, eps, rng, firstDraw, init)
      && (h.LearnerTurn? ==>
            PolicyMove(rules, c, Replay(rules, c, t0, lr, gamma, LearnerMoves(init)), eps,
                       rng(firstDraw + |LearnerMoves(init)|), h.t))
  }

  /** Appending a half-move that follows the policy keeps the whole sequence following it. */
  lemma PolicyExtend(rules: Rules, c: Color, t0: Table, lr: real, gamma: real, eps: real,
                     rng: nat -> Draw, firstDraw: nat, hs: seq<HalfMove>, t: Table, draw: nat, h: HalfMove)
    requires FollowsPolicy(rules, c, t0, lr, gamma, eps, rng, firstDraw, hs)
    requires t == Replay(rules, c, t0, lr, gamma, LearnerMoves(hs)) && draw == firstDraw + |LearnerMoves(hs)|
    requires h.LearnerTurn? ==> PolicyMove(rules, c, t, eps, rng(draw), h.t)
    ensures FollowsPolicy(rules, c, t0, lr, gamma, eps, rng, firstDraw, hs + [h])
  {
    var hs' := hs + [h];
    assert hs'[..|hs'| - 1] == hs && hs'[|hs'| - 1] == h;
  }

  /**
   * The learner's half-move: the state key before, `choose_action` with the
   * next draw, `step`, the state key after, and one `update`. When the learner
   * has no legal move nothing happens and `stop` is set.
   */
  method LearnerHalfMove(rules: Rules, agent: QLearningBot, env: ChessEnvironment, rng: nat -> Draw, draw: nat)
    returns (ghost h: Option<HalfMove>, nextDraw: nat, stop: bool)
    requires agent.Valid() && env.board.pos.turn == agent.color
    modifies agent, env.board
    ensures agent.Valid()
    ensures agent.lr == old(agent.lr) && agent.gamma == old(agent.gamma) && agent.epsilon == old(agent.epsilon)
    ensures stop <==> rules.legalMoves(old(env.board.pos)) == []
    ensures stop <==> h.None?
    ensures nextDraw == draw + (if stop then 0 else 1)
    ensures stop ==> agent.qTable == old(agent.qTable) && env.board.pos == old(env.board.pos)
    ensures h.Some? ==>
      && h.value.LearnerTurn? && h.value.Before() == old(env.board.pos) && h.value.After() == env.board.pos
      && ValidHalfMove(rules, agent.color, h.value)
      && agent.qTable == Learn(rules, agent.color, old(agent.qTable), agent.lr, agent.gamma, h.value.t)
      && PolicyMove(rules, agent.color, old(agent.qTable), agent.epsilon, rng(draw), h.value.t)
  {
    var board := env.board;
    nextDraw := draw;
    var state := agent.GetSimplifiedState(rules, board);
    var legalMoves := rules.legalMoves(board.pos);
    if legalMoves == [] {
      return None, nextDraw, true;
    }
    var d := rng(nextDraw);
    nextDraw := nextDraw + 1;
    var action := agent.ChooseAction(rules, board, legalMoves, d.u, d.pick % |legalMoves|);

    ghost var before := board.pos;
    var boardAfterMove, reward, done := env.Step(rules, action);
    var nextState := agent.GetSimplifiedState(rules, boardAfterMove);

    agent.Update(state, action, reward, nextState);
    h := Some(LearnerTurn(Transition(before, action, boardAfterMove.pos)));
    stop := false;
  }

  /** The opponent's half-move: its `get_move` reply is pushed as it is, nothing when it has none. */
  method OpponentHalfMove(rules: Rules, opponent: ValueBot, board: Board, c: Color) returns (ghost h: HalfMove)
    requires board.pos.turn != c
    modifies board, opponent.env
    ensures h.OpponentTurn? && h.Before() == old(board.pos) && h.After() == board.pos
    ensures ValidHalfMove(rules, c, h)
  {
    ghost var before := board.pos;
    var move := opponent.GetMove(rules, board);
    if move.Some? {
      board.Push(rules, move.value);
    }
    h := OpponentTurn(before, move, board.pos);
  }

  /**
   * The episode loop has stopped on hs standing at finish: the ply bound was
   * reached, a half-move was played and left the game over (`done` starts
   * false, so the body runs at least once), or the learner is to move with no
   * legal move.
   */
  ghost predicate Ended(rules: Rules, c: Color, hs: seq<HalfMove>, finish: Position, maxPlies: nat) {
    || |hs| == maxPlies
    || (hs != [] && rules.isGameOver(finish))
    || (finish.turn == c && rules.legalMoves(finish) == [])
  }

  /**
   * The state of an episode loop that started at start with table t0 and draw
   * firstDraw: game has been played up to finish, t is the replay of its
   * learner moves, each of them was the policy's choice, and nextDraw is the
   * first draw not yet used.
   */
  ghost predicate Progress(rules: Rules, c: Color, start: Position, t0: Table, lr: real, gamma: real, eps: real,
                           rng: nat -> Draw, firstDraw: nat,
                           game: seq<HalfMove>, finish: Position, t: Table, nextDraw: nat) {
    && Game(rules, c, start, game, finish)
    && t == Replay(rules, c, t0, lr, gamma, LearnerMoves(game))
    && FollowsPolicy(rules, c, t0, lr, gamma, eps, rng, firstDraw, game)
    && nextDraw == firstDraw + |LearnerMoves(game)|
  }

  /** One more half-move, learner or opponent, played from where the loop stands. */
  lemma ProgressExtend(rules: Rules, c: Color, start: Position, t0: Table, lr: real, gamma: real, eps: real,
                       rng: nat -> Draw, firstDraw: nat,
                       game: seq<HalfMove>, t: Table, nextDraw: nat, h: HalfMove, t': Table, nextDraw': nat)
    requires Progress(rules, c, start, t0, lr, gamma, eps, rng, firstDraw, game, h.Before(), t, nextDraw)
    requires game != [] ==> !rules.isGameOver(h.Before())
    requires ValidHalfMove(rules, c, h)
    requires h.LearnerTurn? ==>
      && t' == Learn(rules, c, t, lr, gamma, h.t)
      && PolicyMove(rules, c, t, eps, rng(nextDraw), h.t)
      && nextDraw' == nextDraw + 1
    requires h.OpponentTurn? ==> t' == t && nextDraw' == nextDraw
    ensures Progress(rules, c, start, t0, lr, gamma, eps, rng, firstDraw, game + [h], h.After(), t', nextDraw')
  {
    GameExtend(rules, c, start, game, h);
    PolicyExtend(rules, c, t0, lr, gamma, eps, rng, firstDraw, game, t, nextDraw, h);
    if h.LearnerTurn? {
      ReplaySnoc(rules, c, t0, lr, gamma, LearnerMoves(game), h.t);
    } else {
      assert LearnerMoves(game + [h]) == LearnerMoves(game) + [] == LearnerMoves(game);
    }
  }

  /**
   * One episode of `train` on env's board: learner and opponent half-moves
   * alternate by side to move until the game is over, the learner has no legal
   * move, or `maxPlies` half-moves have been played.
   */
  method PlayEpisode(rules: Rules, agent: QLearningBot, opponent: ValueBot, env: ChessEnvironment,
                     rng: nat -> Draw, firstDraw: nat, maxPlies: nat)
    returns (ghost game: seq<HalfMove>, nextDraw: nat)
    requires agent.Valid()
    requires env != opponent.env
    modifies agent, env.board, opponent.env
    ensures agent.Valid()
    ensures agent.lr == old(agent.lr) && agent.gamma == old(agent.gamma) && agent.epsilon == old(agent.epsilon)
    ensures Game(rules, agent.color, old(env.board.pos), game, env.board.pos)
    ensures agent.qTable == Replay(rules, agent.color, old(agent.qTable), agent.lr, agent.gamma, LearnerMoves(game))
    ensures FollowsPolicy(rules, agent.color, old(agent.qTable), agent.lr, agent.gamma, agent.epsilon,
                          rng, firstDraw, game)
    ensures nextDraw == firstDraw + |LearnerMoves(game)|
    ensures env.board == old(env.board) && |game| <= maxPlies
    ensures Ended(rules, agent.color, game, env.board.pos, maxPlies)
  {
    var board := env.board;
    var done := false;
    game := [];
    nextDraw := firstDraw;
    var plies := 0;
    while !done && plies < maxPlies
      invariant board == env.board && env != opponent.env && plies == |game| <= maxPlies
      invariant agent.Valid()
      invariant agent.lr == old(agent.lr) && agent.gamma == old(agent.gamma) && agent.epsilon == old(agent.epsilon)
      invariant Progress(rules, agent.color, old(env.board.pos), old(agent.qTable), agent.lr, agent.gamma, agent.epsilon,
                         rng, firstDraw, game, board.pos, agent.qTable, nextDraw)
      invariant done == (game != [] && rules.isGameOver(board.pos))
      decreases maxPlies - plies
    {
      ghost var extended;
      var stop;
      extended, nextDraw, stop := PlayHalfMove(rules, agent, opponent, env, rng, old(env.board.pos), old(agent.qTable),
                                               firstDraw, game, nextDraw);
      if stop {
        break;
      }
      game := extended;
      done := rules.isGameOver(board.pos);
      plies := plies + 1;
    }
  }

  /**
   * One pass of the episode loop's body: the learner's half-move when it is
   * the learner's turn (`stop` when it has no legal move), the opponent's
   * otherwise.
   */
  method PlayHalfMove(rules: Rules, agent: QLearningBot, opponent: ValueBot, env: ChessEnvironment,
                      rng: nat -> Draw, ghost start: Position, ghost t0: Table, ghost firstDraw: nat,
                      ghost game: seq<HalfMove>, draw: nat)
    returns (ghost extended: seq<HalfMove>, nextDraw: nat, stop: bool)
    requires agent.Valid()
    requires env != opponent.env
    requires Progress(rules, agent.color, start, t0, agent.lr, agent.gamma, agent.epsilon,
                      rng, firstDraw, game, env.board.pos, agent.qTable, draw)
    requires game != [] ==> !rules.isGameOver(env.board.pos)
    modifies agent, env.board, opponent.env
    ensures agent.Valid()
    ensures agent.lr == old(agent.lr) && agent.gamma == old(agent.gamma) && agent.epsilon == old(agent.epsilon)
    ensures env.board == old(env.board)
    ensures Progress(rules, agent.color, start, t0, agent.lr, agent.gamma, agent.epsilon,
                     rng, firstDraw, extended, env.board.pos, agent.qTable, nextDraw)
    ensures stop ==> extended == game && env.board.pos.turn == agent.color && rules.legalMoves(env.board.pos) == []
    ensures !stop ==> |extended| == |game| + 1
  {
    var board := env.board;
    ghost var h: HalfMove;
    ghost var t := agent.qTable;
    if board.pos.turn == agent.color {
      ghost var learned;
      learned, nextDraw, stop := LearnerHalfMove(rules, agent, env, rng, draw);
      if stop {
        return game, nextDraw, true;
      }
      h := learned.value;
    } else {
      h := OpponentHalfMove(rules, opponent, board, agent.color);
      nextDraw, stop := draw, false;
    }
    ProgressExtend(rules, agent.color, start, t0, agent.lr, agent.gamma, agent.epsilon,
                   rng, firstDraw, game, t, draw, h, agent.qTable, nextDraw);
    extended := game + [h];
  }

  /** hs is a whole episode: a game from the starting position, played until the loop stopped. */
  ghost predicate Episode(rules: Rules, c: Color, hs: seq<HalfMove>, maxPlies: nat) {
    exists finish :: Game(rules, c, rules.initial, hs, finish) && Ended(rules, c, hs, finish, maxPlies)
  }

  /**
   * game is what `train` plays after the episodes earlier: a whole episode in
   * which the learner (White, default rates) follows the epsilon-greedy policy
   * on the table the earlier episodes left, with the exploration rate decayed
   * once per earlier episode and the draws they did not use.
   */
  ghost predicate TrainingEpisode(rules: Rules, rng: nat -> Draw, maxPlies: nat,
                                  earlier: seq<seq<HalfMove>>, game: seq<HalfMove>) {
    var log := Flatten(earlier);
    && Episode(rules, White, game, maxPlies)
    && FollowsPolicy(rules, White, Replay(rules, White, map[], DefaultLearningRate, DefaultDiscountFactor, log),
                     DefaultLearningRate, DefaultDiscountFactor, DecayedN(DefaultEpsilon, |earlier|),
                     rng, |log|, game)
  }

  /** Every episode of games is a training episode after the ones before it. */
  ghost predicate TrainingRun(rules: Rules, rng: nat -> Draw, maxPlies: nat, games: seq<seq<HalfMove>>) {
    if games == [] then true
    else
      var earlier := games[..|games| - 1];
      TrainingRun(rules, rng, maxPlies, earlier) && TrainingEpisode(rules, rng, maxPlies, earlier, games[|games| - 1])
  }

  /** One more training episode, played on the table, rate and draws the earlier ones left, extends the run. */
  lemma TrainingRunExtend(rules: Rules, rng: nat -> Draw, maxPlies: nat, games: seq<seq<HalfMove>>, game: seq<HalfMove>,
                          t: Table, eps: real, draw: nat)
    requires TrainingRun(rules, rng, maxPlies, games)
    requires t == Replay(rules, White, map[], DefaultLearningRate, DefaultDiscountFactor, Flatten(games))
    requires eps == DecayedN(DefaultEpsilon, |games|) && draw == |Flatten(games)|
    requires Episode(rules, White, game, maxPlies)
    requires FollowsPolicy(rules, White, t, DefaultLearningRate, DefaultDiscountFactor, eps, rng, draw, game)
    ensures TrainingRun(rules, rng, maxPlies, games + [game])
  {
    var games' := games + [game];
    assert games'[..|games'| - 1] == games && games'[|games'| - 1] == game;
  }

  /** A training run, read episode by episode. */
  lemma {:induction false} TrainingRunEpisodes(rules: Rules, rng: nat -> Draw, maxPlies: nat, games: seq<seq<HalfMove>>)
    requires TrainingRun(rules, rng, maxPlies, games)
    ensures forall e :: 0 <= e < |games| ==> TrainingEpisode(rules, rng, maxPlies, games[..e], games[e])
  {
    if games != [] {
      var last := |games| - 1;
      var earlier := games[..last];
      TrainingRunEpisodes(rules, rng, maxPlies, earlier);
      forall e | 0 <= e < |games|
        ensures TrainingEpisode(rules, rng, maxPlies, games[..e], games[e])
      {
        if e < last {
          assert games[..e] == earlier[..e] && games[e] == earlier[e];
          assert TrainingEpisode(rules, rng, maxPlies, games[..e], games[e])
              == TrainingEpisode(rules, rng, maxPlies, earlier[..e], earlier[e]);
        } else {
          assert games[..e] == earlier;
        }
      }
    }
  }

  /**
   * `train(episodes)`: returns the learner whose Q-table would be pickled.
   * Every episode is a game from the starting position played until it
   * stopped; in episode e the learner follows the epsilon-greedy policy on
   * the table left by episodes 0..e-1, with exploration rate decayed e times
   * and the draws not yet used; the final table is the replay of the
   * learner's moves of all episodes in order.
   */
  method Train(rules: Rules, episodes: nat, rng: nat -> Draw, maxPlies: nat)
    returns (agent: QLearningBot, ghost games: seq<seq<HalfMove>>, ghost log: seq<Transition>)
    ensures fresh(agent) && agent.Valid() && agent.color == White
    ensures agent.lr == DefaultLearningRate && agent.gamma == DefaultDiscountFactor
    ensures agent.epsilon == DecayedN(DefaultEpsilon, episodes)
    ensures |games| == episodes
    ensures forall e :: 0 <= e < episodes ==> TrainingEpisode(rules, rng, maxPlies, games[..e], games[e])
    ensures log == Flatten(games)
    ensures agent.qTable == Replay(rules, White, map[], DefaultLearningRate, DefaultDiscountFactor, log)
  {
    agent := new QLearningBot(White);
    var opponentEnv := new ChessEnvironment(rules);
    var opponent := new ValueBot(Black, opponentEnv);
    var draws := 0;
    games := [];
    log := [];
    for episode := 0 to episodes
      invariant fresh(agent) && agent.Valid() && agent.color == White
      invariant agent.lr == DefaultLearningRate && agent.gamma == DefaultDiscountFactor
      invariant agent.epsilon == DecayedN(DefaultEpsilon, episode)
      invariant |games| == episode
      invariant TrainingRun(rules, rng, maxPlies, games)
      invariant draws == |log|
      invariant log == Flatten(games)
      invariant agent.qTable == Replay(rules, White, map[], DefaultLearningRate, DefaultDiscountFactor, log)
      invariant fresh(opponent) && fresh(opponent.env)
    {
      ghost var game;
      ghost var t, eps, draw := agent.qTable, agent.epsilon, draws;
      game, draws := TrainEpisode(rules, agent, opponent, rng, draws, maxPlies);
      TrainingRunExtend(rules, rng, maxPlies, games, game, t, eps, draw);
      ReplayAppend(rules, White, map[], DefaultLearningRate, DefaultDiscountFactor, log, LearnerMoves(game));
      assert (games + [game])[..episode] == games;
      assert Flatten(games + [game]) == Flatten(games) + LearnerMoves(game);
      games := games + [game];
      log := log + LearnerMoves(game);
    }
    TrainingRunEpisodes(rules, rng, maxPlies, games);
  }

  /** One iteration of `train`'s episode loop: a fresh environment, one episode, one decay. */
  method TrainEpisode(rules: Rules, agent: QLearningBot, opponent: ValueBot, rng: nat -> Draw,
                      firstDraw: nat, maxPlies: nat)
    returns (ghost game: seq<HalfMove>, nextDraw: nat)
    requires agent.Valid()
    modifies agent, opponent.env
    ensures agent.Valid()
    ensures agent.lr == old(agent.lr) && agent.gamma == old(agent.gamma)
    ensures agent.epsilon == Decayed(old(agent.epsilon))
    ensures Episode(rules, agent.color, game, maxPlies)
    ensures FollowsPolicy(rules, agent.color, old(agent.qTable), agent.lr, agent.gamma, old(agent.epsilon),
                          rng, firstDraw, game)
    ensures nextDraw == firstDraw + |LearnerMoves(game)|
    ensures agent.qTable == Replay(rules, agent.color, old(agent.qTable), agent.lr, agent.gamma, LearnerMoves(game))
  {
    var env := new ChessEnvironment(rules);
    var board := env.Reset(rules);
    game, nextDraw := PlayEpisode(rules, agent, opponent, env, rng, firstDraw, maxPlies);
    agent.DecayEpsilon();
  }

  /** The learner's transitions of a sequence of games, game after game. */
  function Flatten(games: seq<seq<HalfMove>>): seq<Transition> {
    if games == [] then []
    else Flatten(games[..|games| - 1]) + LearnerMoves(games[|games| - 1])
  }
}

/**
 * The greedy sparring partner (agents/value_bot.py): it scores every legal
 * move by one simulated `step` on a board rebuilt from the position's FEN and
 * keeps the first move of strictly highest reward.
 */
module ValueAgent {
  import opened Wrappers
  import opened Chess
  import opened ChessEnv

  /** The position `chess.Board(board.fen())` and `set_fen(board.fen())` produce. */
  function Rebuilt(rules: Rules, p: Position): Position {
    rules.parseFen(rules.fen(p))
  }

  /** The reward one simulated `step(m)` reports when simulating from position p. */
  function SimulatedReward(rules: Rules, p: Position, m: Uci): real {
    StepReward(rules, Rebuilt(rules, p), m)
  }

  /**
   * Move k is what a "first strictly greater" scan over the moves keeps: no
   * move simulates to a higher reward, and every earlier move to a lower one.
   */
  ghost predicate IsGreedyChoice(rules: Rules, p: Position, moves: seq<Uci>, k: int) {
    && 0 <= k < |moves|
    && (forall j :: 0 <= j < |moves| ==> SimulatedReward(rules, p, moves[j]) <= SimulatedReward(rules, p, moves[k]))
    && (forall j :: 0 <= j < k ==> SimulatedReward(rules, p, moves[j]) < SimulatedReward(rules, p, moves[k]))
  }

  /** The scan's result is determined: at most one move is the greedy choice. */
  lemma GreedyChoiceUnique(rules: Rules, p: Position, moves: seq<Uci>, k: int, k': int)
    requires IsGreedyChoice(rules, p, moves, k) && IsGreedyChoice(rules, p, moves, k')
    ensures k == k'
  {
    var r, r' := SimulatedReward(rules, p, moves[k]), SimulatedReward(rules, p, moves[k']);
    assert r <= r' && r' <= r;
  }

  /** Every non-empty list of moves has a greedy choice. */
  lemma {:induction false} GreedyChoiceExists(rules: Rules, p: Position, moves: seq<Uci>)
    requires moves != []
    ensures exists k :: IsGreedyChoice(rules, p, moves, k)
  {
    var last := |moves| - 1;
    if last == 0 {
      assert IsGreedyChoice(rules, p, moves, 0);
    } else {
      var init := moves[..last];
      GreedyChoiceExists(rules, p, init);
      var k :| IsGreedyChoice(rules, p, init, k);
      assert forall j :: 0 <= j < last ==> init[j] == moves[j];
      if SimulatedReward(rules, p, moves[last]) > SimulatedReward(rules, p, moves[k]) {
        assert IsGreedyChoice(rules, p, moves, last);
      } else {
        assert IsGreedyChoice(rules, p, moves, k);
      }
    }
  }

  class ValueBot {
    const color: Color
    var env: ChessEnvironment

    /** `ValueBot(color, chess_environment)`: the environment is shared, not copied. */
    constructor (color: Color, chessEnvironment: ChessEnvironment)
      ensures this.color == color && env == chessEnvironment
    {
      this.color := color;
      env := chessEnvironment;
    }

    /**
     * `get_move(board)`: None when there is no legal move, otherwise the first
     * legal move of greatest simulated reward. The caller's board is never
     * written; the environment is left pointing at a new board that holds the
     * position rebuilt from the caller's FEN.
     */
    method GetMove(rules: Rules, board: Board) returns (r: Option<Uci>)
      modifies env
      ensures board.pos == old(board.pos)
      ensures r.None? <==> rules.legalMoves(old(board.pos)) == []
      ensures r.Some? ==>
        exists k :: IsGreedyChoice(rules, old(board.pos), rules.legalMoves(old(board.pos)), k)
                    && r.value == rules.legalMoves(old(board.pos))[k]
      ensures r.None? ==> env.board == old(env.board)
      ensures r.Some? ==> fresh(env.board) && env.board.pos == Rebuilt(rules, old(board.pos))
    {
      var legalMoves := rules.legalMoves(board.pos);
      if legalMoves == [] {
        return None;
      }

      var bestMove := legalMoves[0];
      var maxReward: Option<real> := None;  // None stands for -inf
      ghost var bestIdx := 0;

      var originalBoardFen := rules.fen(board.pos);

      for i := 0 to |legalMoves|
        invariant board.pos == old(board.pos)
        invariant i > 0 ==> fresh(env.board)
        invariant maxReward.None? <==> i == 0
        invariant 0 <= bestIdx < |legalMoves| && bestMove == legalMoves[bestIdx]
        invariant i > 0 ==>
          && bestIdx < i
          && maxReward.value == SimulatedReward(rules, board.pos, legalMoves[bestIdx])
          && (forall j :: 0 <= j < i ==> SimulatedReward(rules, board.pos, legalMoves[j]) <= maxReward.value)
          && (forall j :: 0 <= j < bestIdx ==> SimulatedReward(rules, board.pos, legalMoves[j]) < maxReward.value)
      {
        var move := legalMoves[i];
        var tempBoard := new Board(rules.parseFen(originalBoardFen));
        var tempEnv := env;
        tempEnv.board := tempBoard;

        var boardAfter, reward, done := tempEnv.Step(rules, move);

        if maxReward.None? || reward > maxReward.value {
          maxReward := Some(reward);
          bestMove := move;
          bestIdx := i;
        }
      }

      env.board.SetFen(rules, originalBoardFen);
      assert IsGreedyChoice(rules, board.pos, legalMoves, bestIdx);
      r := Some(bestMove);
    }
  }
}

/**
 * The learning agent (agents/q_learning_bot.py): the state abstraction, the
 * epsilon-greedy choice, the Bellman update of the Q-table and the decay of
 * the exploration rate.
 */
module QLearningAgent {
  import opened Wrappers
  import opened Chess
  import opened QTable

  const DefaultLearningRate: real := 0.1
  const DefaultDiscountFactor: real := 0.9
  const DefaultEpsilon: real := 0.9
  const EpsilonDecay: real := 0.9995
  const EpsilonMin: real := 0.05

  /** The piece types the state key counts, in the order the source lists them. */
  const MaterialTypes: seq<PieceType> := [Pawn, Knight, Bishop, Rook, Queen]

  /** The number of pieces of an army whose type is listed. */
  function CountOf(army: Army, types: seq<PieceType>): nat {
    if types == [] then 0 else army.Count(types[0]) + CountOf(army, types[1..])
  }

  /**
   * `get_simplified_state(board)` for an agent playing colour c: material
   * counts of both sides and the number of legal moves c would have if it
   * were c's turn.
   */
  function Key(rules: Rules, c: Color, p: Position): StateKey {
    StateKey(
      CountOf(p.ArmyOf(c), MaterialTypes),
      CountOf(p.ArmyOf(c.Other()), MaterialTypes),
      |rules.legalMoves(p.(turn := c))|)
  }

  /** The three parts of the key: non-king piece counts of each side, and c's mobility. */
  lemma KeyParts(rules: Rules, c: Color, p: Position)
    ensures var k := Key(rules, c, p);
      var own := p.ArmyOf(c);
      var opp := p.ArmyOf(c.Other());
      && k.ownMaterial == own.pawns + own.knights + own.bishops + own.rooks + own.queens
      && k.oppMaterial == opp.pawns + opp.knights + opp.bishops + opp.rooks + opp.queens
      && k.mobility == |rules.legalMoves(p.(turn := c))|
  {
    MaterialCount(p.ArmyOf(c));
    MaterialCount(p.ArmyOf(c.Other()));
  }

  /** Summing over the listed types counts every piece but the king. */
  lemma MaterialCount(a: Army)
    ensures CountOf(a, MaterialTypes) == a.pawns + a.knights + a.bishops + a.rooks + a.queens
  {
    var t1, t2, t3, t4 := [Knight, Bishop, Rook, Queen], [Bishop, Rook, Queen], [Rook, Queen], [Queen];
    assert t4[1..] == [] && t3[1..] == t4 && t2[1..] == t3 && t1[1..] == t2 && MaterialTypes[1..] == t1;
    assert CountOf(a, t4) == a.queens;
    assert CountOf(a, t3) == a.rooks + a.queens;
    assert CountOf(a, t2) == a.bishops + a.rooks + a.queens;
    assert CountOf(a, t1) == a.knights + a.bishops + a.rooks + a.queens;
  }

  /** The key does not depend on whose turn it is in the position it is taken from. */
  lemma KeyIgnoresTurn(rules: Rules, c: Color, p: Position, t: Color)
    ensures Key(rules, c, p.(turn := t)) == Key(rules, c, p)
  {
    assert p.(turn := t).(turn := c) == p.(turn := c);
  }

  /** `decay_epsilon` on exploration rate e. */
  function Decayed(e: real): real {
    if e > EpsilonMin then e * EpsilonDecay else e
  }

  /** The exploration rate after n calls of `decay_epsilon`. */
  function DecayedN(e: real, n: nat): real {
    if n == 0 then e else Decayed(DecayedN(e, n - 1))
  }

  /** One decay never raises a non-negative rate, and strictly lowers one above the floor. */
  lemma DecayNeverIncreases(e: real)
    requires e >= 0.0
    ensures 0.0 <= Decayed(e) <= e
    ensures e > EpsilonMin ==> Decayed(e) < e
  {
  }

  /** At or below the floor, decay is a no-op forever. */
  lemma {:induction false} DecayFrozenAtFloor(e: real, n: nat)
    requires e <= EpsilonMin
    ensures DecayedN(e, n) == e
  {
    if n > 0 {
      DecayFrozenAtFloor(e, n - 1);
    }
  }

  /** Repeated decay of a non-negative rate is non-increasing and stays non-negative. */
  lemma {:induction false} DecayedNNonIncreasing(e: real, n: nat)
    requires e >= 0.0
    ensures 0.0 <= DecayedN(e, n + 1) <= DecayedN(e, n) <= e
  {
    if n > 0 {
      DecayedNNonIncreasing(e, n - 1);
    }
    DecayNeverIncreases(DecayedN(e, n));
  }

  /** From a start above the floor, the rate stays above floor * decay. */
  lemma {:induction false} DecayStaysAboveUndershoot(e: real, n: nat)
    requires e > EpsilonMin
    ensures DecayedN(e, n) > EpsilonMin * EpsilonDecay
  {
    if n > 0 {
      DecayStaysAboveUndershoot(e, n - 1);
    }
  }

  /** The guard is tested before the multiply, so the last decay can land below the floor. */
  lemma DecayCanUndershoot()
    ensures exists e :: e > EpsilonMin && Decayed(e) < EpsilonMin
  {
    var e := 0.05001;
    assert e > EpsilonMin && Decayed(e) < EpsilonMin;
  }

  /** `{m.uci() for m in legal_moves}`: the moves of the list, as a set. */
  function LegalSet(legalMoves: seq<Uci>): set<Uci> {
    set m | m in legalMoves
  }

  /**
   * `choose_action` on a table row, exploration rate eps, the legal moves, the
   * uniform draw u and the index pick `random.choice` draws: below eps the
   * drawn move; otherwise what the exploit scan keeps, or the drawn move when
   * no stored action is legal.
   */
  function EpsilonGreedyChoice(row: Row, eps: real, legalMoves: seq<Uci>, u: real, pick: nat): Uci
    requires pick < |legalMoves|
  {
    if u < eps then legalMoves[pick]
    else
      match FirstBest(row, legalMoves)
      case None => legalMoves[pick]
      case Some(i) => row[i].action
  }

  /**
   * r is an epsilon-greedy choice: a legal move; below eps the drawn move;
   * otherwise the first stored legal action of strictly greatest value, or the
   * drawn move when no stored action is legal.
   */
  ghost predicate EpsilonGreedy(row: Row, eps: real, legalMoves: seq<Uci>, u: real, pick: int, r: Uci) {
    && 0 <= pick < |legalMoves|
    && r in legalMoves
    && (u < eps ==> r == legalMoves[pick])
    && (u >= eps && (exists j :: LegalEntry(row, legalMoves, j)) ==>
          exists i :: IsFirstBest(row, legalMoves, i) && r == row[i].action)
    && (u >= eps && (forall j :: !LegalEntry(row, legalMoves, j)) ==> r == legalMoves[pick])
  }

  /** The computed choice is an epsilon-greedy choice. */
  lemma EpsilonGreedyChoiceCorrect(row: Row, eps: real, legalMoves: seq<Uci>, u: real, pick: nat)
    requires pick < |legalMoves|
    ensures EpsilonGreedy(row, eps, legalMoves, u, pick, EpsilonGreedyChoice(row, eps, legalMoves, u, pick))
  {
    FirstBestCorrect(row, legalMoves);
  }

  /** The choice is a function of the row, the rate and the draws: two choices agree. */
  lemma EpsilonGreedyUnique(row: Row, eps: real, legalMoves: seq<Uci>, u: real, pick: int, r: Uci, r': Uci)
    requires EpsilonGreedy(row, eps, legalMoves, u, pick, r)
    requires EpsilonGreedy(row, eps, legalMoves, u, pick, r')
    ensures r == r'
  {
    if u >= eps && exists j :: LegalEntry(row, legalMoves, j) {
      var i :| IsFirstBest(row, legalMoves, i) && r == row[i].action;
      var i' :| IsFirstBest(row, legalMoves, i') && r' == row[i'].action;
      FirstBestUnique(row, legalMoves, i, i');
    }
  }

  class QLearningBot {
    const color: Color
    var qTable: Table
    var lr: real
    var gamma: real
    var epsilon: real
    const epsilonDecay: real := EpsilonDecay
    const epsilonMin: real := EpsilonMin

    /**
     * Every row of the table is a well-formed Python dict: its actions are
     * pairwise distinct. Kept for its own sake; `Update` preserves it.
     */
    ghost predicate Valid()
      reads this
    {
      ValidTable(qTable)
    }

    /** `QLearningBot(color, learning_rate, discount_factor, epsilon)`: an empty table. */
    constructor (color: Color, learningRate: real := DefaultLearningRate,
                 discountFactor: real := DefaultDiscountFactor, epsilon: real := DefaultEpsilon)
      ensures Valid()
      ensures this.color == color && qTable == map[]
      ensures lr == learningRate && gamma == discountFactor && this.epsilon == epsilon
    {
      this.color := color;
      qTable := map[];
      lr := learningRate;
      gamma := discountFactor;
      this.epsilon := epsilon;
    }

    /** `get_simplified_state(board)`: mobility is counted on a private copy whose turn is set to `color`. */
    method GetSimplifiedState(rules: Rules, board: Board) returns (k: StateKey)
      ensures k == Key(rules, color, board.pos)
    {
      var myMaterial := CountOf(board.pos.ArmyOf(color), MaterialTypes);
      var oppMaterial := CountOf(board.pos.ArmyOf(color.Other()), MaterialTypes);
      var tempBoard := board.Copy();
      tempBoard.SetTurn(color);
      var myMobility := |rules.legalMoves(tempBoard.pos)|;
      k := StateKey(myMaterial, oppMaterial, myMobility);
    }

    /**
     * `choose_action(board, legal_moves)` with the uniform draw u and the index
     * pick that `random.choice` would draw. Below epsilon it explores; otherwise
     * it keeps the first stored legal action of strictly greatest value, in
     * table order, and falls back to the drawn legal move when there is none.
     */
    method ChooseAction(rules: Rules, board: Board, legalMoves: seq<Uci>, u: real, pick: nat) returns (r: Uci)
      requires pick < |legalMoves|
      ensures r == EpsilonGreedyChoice(RowAt(qTable, Key(rules, color, board.pos)), epsilon, legalMoves, u, pick)
      ensures EpsilonGreedy(RowAt(qTable, Key(rules, color, board.pos)), epsilon, legalMoves, u, pick, r)
    {
      EpsilonGreedyChoiceCorrect(RowAt(qTable, Key(rules, color, board.pos)), epsilon, legalMoves, u, pick);
      var state := GetSimplifiedState(rules, board);

      if u < epsilon {
        return legalMoves[pick];
      }
      var stateActions := RowAt(qTable, state);
      if stateActions == [] {
        return legalMoves[pick];
      }

      var bestMove: Option<Uci> := None;
      var maxQ: Option<real> := None;  // None stands for -inf
      ghost var bestIdx := 0;
      var legalSet := LegalSet(legalMoves);
      for i := 0 to |stateActions|
        invariant bestMove.None? <==> maxQ.None?
        invariant FirstBest(stateActions[..i], legalMoves) == if bestMove.None? then None else Some(bestIdx)
        invariant bestMove.Some? ==>
          && bestIdx < i
          && bestMove.value == stateActions[bestIdx].action
          && maxQ.value == stateActions[bestIdx].value
      {
        var moveUci, qVal := stateActions[i].action, stateActions[i].value;
        assert stateActions[..i + 1][..i] == stateActions[..i];
        if moveUci in legalSet && (maxQ.None? || qVal > maxQ.value) {
          maxQ := Some(qVal);
          bestMove := Some(moveUci);
          bestIdx := i;
        }
      }
      assert stateActions[..|stateActions|] == stateActions;

      if bestMove.Some? {
        r := bestMove.value;
      } else {
        r := legalMoves[pick];
      }
    }

    /** `update(state, action, reward, next_state)`: one Bellman backup of Q[state][action]. */
    method Update(state: StateKey, action: Uci, reward: real, nextState: StateKey)
      requires Valid()
      modifies this
      ensures Valid()
      ensures qTable == Bellman(old(qTable), lr, gamma, state, action, reward, nextState)
      ensures lr == old(lr) && gamma == old(gamma) && epsilon == old(epsilon)
    {
      ghost var before := qTable;
      if state !in qTable {
        qTable := qTable[state := []];
      }
      var oldValue := Get(qTable[state], action);
      var nextMax := if nextState in qTable && qTable[nextState] != [] then MaxValue(qTable[nextState]) else 0.0;
      var newValue := oldValue + lr * (reward + gamma * nextMax - oldValue);
      assert newValue == Backup(oldValue, lr, gamma, reward, nextMax);
      assert qTable[state] == RowAt(before, state) && nextMax == NextMax(before, nextState);
      qTable := qTable[state := Put(qTable[state], action, newValue)];
      BellmanUnfold(before, lr, gamma, state, action, reward, nextState);
      BellmanKeepsValid(before, lr, gamma, state, action, reward, nextState);
    }

    /** `decay_epsilon`: multiply by the decay factor only while above the floor. */
    method DecayEpsilon()
      modifies this
      ensures epsilon == Decayed(old(epsilon))
      ensures qTable == old(qTable) && lr == old(lr) && gamma == old(gamma)
    {
      if epsilon > epsilonMin {
        epsilon := epsilon * epsilonDecay;
      }
    }
  }
}

/**
 * The reward environment (chess_env.py): one mutable board, a fixed-weight
 * material count, and `step`, which commits a move and scores it from the
 * mover's point of view.
 */
module ChessEnv {
  import opened Chess

  /** `piece_values`, in its insertion order. The king has no entry. */
  const PieceValues: seq<(PieceType, real)> :=
    [(Pawn, 1.0), (Knight, 3.0), (Bishop, 3.1), (Rook, 5.0), (Queen, 9.0)]

  /** Added to the reward of a move that delivers checkmate. */
  const CheckmateBonus: real := 100.0

  /** The sum of count(t) * w over the entries (t, w) of a weight table. */
  function WeightedSum(army: Army, table: seq<(PieceType, real)>): real
  {
    if table == [] then 0.0
    else
      var (t, w) := table[|table| - 1];
      WeightedSum(army, table[..|table| - 1]) + army.Count(t) as real * w
  }

  /** `get_material_value(c)` on a board holding position p. */
  function Material(p: Position, c: Color): real {
    WeightedSum(p.ArmyOf(c), PieceValues)
  }

  /** Material of side c minus that of the other side. */
  function Balance(p: Position, c: Color): real {
    Material(p, c) - Material(p, c.Other())
  }

  /** The reward `step(m)` returns when the board holds `before`. */
  function StepReward(rules: Rules, before: Position, m: Uci): real {
    var after := rules.push(before, m);
    var mover := before.turn;
    (Balance(after, mover) - Balance(before, mover))
      + (if rules.isCheckmate(after) then CheckmateBonus else 0.0)
  }

  /** Material is the fixed linear combination of the five non-king counts. */
  lemma MaterialFormula(p: Position, c: Color)
    ensures var a := p.ArmyOf(c);
      Material(p, c) == a.pawns as real + 3.0 * a.knights as real + 3.1 * a.bishops as real
                        + 5.0 * a.rooks as real + 9.0 * a.queens as real
  {
    var a := p.ArmyOf(c);
    var t1, t2, t3, t4 := PieceValues[..1], PieceValues[..2], PieceValues[..3], PieceValues[..4];
    assert t1[..0] == [] && t2[..1] == t1 && t3[..2] == t2 && t4[..3] == t3 && PieceValues[..4] == t4;
    assert WeightedSum(a, t1) == a.pawns as real;
    assert WeightedSum(a, t2) == a.pawns as real + 3.0 * a.knights as real;
    assert WeightedSum(a, t3) == a.pawns as real + 3.0 * a.knights as real + 3.1 * a.bishops as real;
    assert WeightedSum(a, t4) == a.pawns as real + 3.0 * a.knights as real + 3.1 * a.bishops as real
                                 + 5.0 * a.rooks as real;
  }

  /** Material is never negative. */
  lemma MaterialNonNegative(p: Position, c: Color)
    ensures Material(p, c) >= 0.0
  {
    MaterialFormula(p, c);
  }

  /** The kings contribute nothing: either side's king count can change without changing material. */
  lemma MaterialIgnoresKing(p: Position, c: Color, whiteKings: nat, blackKings: nat)
    ensures Material(p.(white := p.white.(kings := whiteKings), black := p.black.(kings := blackKings)), c)
            == Material(p, c)
  {
    MaterialFormula(p, c);
    MaterialFormula(p.(white := p.white.(kings := whiteKings), black := p.black.(kings := blackKings)), c);
  }

  /** A move that changes no piece counts and does not mate scores 0. */
  lemma QuietMoveScoresZero(rules: Rules, before: Position, m: Uci)
    requires rules.push(before, m).white == before.white
    requires rules.push(before, m).black == before.black
    requires !rules.isCheckmate(rules.push(before, m))
    ensures StepReward(rules, before, m) == 0.0
  {
  }

  /** A mating move that changes no piece counts scores exactly the bonus. */
  lemma QuietMateScoresBonus(rules: Rules, before: Position, m: Uci)
    requires rules.push(before, m).white == before.white
    requires rules.push(before, m).black == before.black
    requires rules.isCheckmate(rules.push(before, m))
    ensures StepReward(rules, before, m) == 100.0
  {
  }

  /** Capturing one opposing pawn, with nothing else changing and no mate, scores +1. */
  lemma PawnCaptureScoresOne(rules: Rules, before: Position, m: Uci)
    requires var after := rules.push(before, m);
      var mover := before.turn;
      && before.ArmyOf(mover.Other()).pawns >= 1
      && after.ArmyOf(mover) == before.ArmyOf(mover)
      && after.ArmyOf(mover.Other())
         == before.ArmyOf(mover.Other()).(pawns := before.ArmyOf(mover.Other()).pawns - 1)
      && !rules.isCheckmate(after)
    ensures StepReward(rules, before, m) == 1.0
  {
    var after := rules.push(before, m);
    var mover := before.turn;
    MaterialFormula(before, mover.Other());
    MaterialFormula(after, mover.Other());
  }

  class ChessEnvironment {
    var board: Board

    /** `ChessEnvironment()`: a fresh board in the starting position. */
    constructor (rules: Rules)
      ensures fresh(board) && board.pos == rules.initial
    {
      board := new Board(rules.initial);
    }

    /** `reset`: the same board object, back in the starting position. */
    method Reset(rules: Rules) returns (b: Board)
      modifies board
      ensures b == board && board.pos == rules.initial
    {
      board.Reset(rules);
      b := board;
    }

    /** `get_material_value(color)`: accumulates count * weight over `piece_values`. */
    method GetMaterialValue(color: Color) returns (value: real)
      ensures value == Material(board.pos, color)
    {
      var army := board.pos.ArmyOf(color);
      value := 0.0;
      for i := 0 to |PieceValues|
        invariant value == WeightedSum(army, PieceValues[..i])
      {
        var (pieceType, pieceValue) := PieceValues[i];
        assert PieceValues[..i + 1][..i] == PieceValues[..i];
        value := value + army.Count(pieceType) as real * pieceValue;
      }
      assert PieceValues[..|PieceValues|] == PieceValues;
    }

    /** `step(move)`: pushes one move on this environment's board and scores it. */
    method Step(rules: Rules, m: Uci) returns (b: Board, reward: real, done: bool)
      modifies board
      ensures b == board
      ensures board.pos == rules.push(old(board.pos), m)
      ensures reward == StepReward(rules, old(board.pos), m)
      ensures done == rules.isGameOver(board.pos)
    {
      var myColor := board.pos.turn;
      var ownBefore := GetMaterialValue(myColor);
      var oppBefore := GetMaterialValue(myColor.Other());
      var valueBefore := ownBefore - oppBefore;

      board.Push(rules, m);

      var ownAfter := GetMaterialValue(myColor);
      var oppAfter := GetMaterialValue(myColor.Other());
      var valueAfter := ownAfter - oppAfter;

      reward := valueAfter - valueBefore;
      if rules.isCheckmate(board.pos) {
        reward := reward + CheckmateBonus;
      } else if rules.isStalemate(board.pos) || rules.isInsufficientMaterial(board.pos) {
        reward := reward + 0.0;
      }

      done := rules.isGameOver(board.pos);
      b := board;
    }
  }
}

/** Python's `None`, or a value. */
module Wrappers {
  datatype Option<+T> = None | Some(value: T) {
    function GetOr(default: T): T {
      match this
      case Some(v) => v
      case None => default
    }
  }
}

/**
 * The chess rules engine the learning core consumes, as an abstract oracle.
 *
 * A position is reduced to what the core looks at directly: how many pieces of
 * each type each side has and whose turn it is. Everything else the engine
 * tracks (the squares, castling rights, the en-passant square, the clocks,
 * the move stack) is folded into an opaque `detail` value. Legality, move
 * application, the terminal tests and FEN conversion are fields of a `Rules`
 * value that every operation receives as a parameter; nothing is assumed
 * about them.
 */
module Chess {

  datatype Color = White | Black {
    /** Python's `not color` on a chess colour. */
    function Other(): Color {
      if this == White then Black else White
    }
  }

  datatype PieceType = Pawn | Knight | Bishop | Rook | Queen | King

  /** The number of pieces of each type one side has: `len(board.pieces(t, c))`. */
  datatype Army = Army(pawns: nat, knights: nat, bishops: nat, rooks: nat, queens: nat, kings: nat) {
    function Count(t: PieceType): nat {
      match t
      case Pawn => pawns
      case Knight => knights
      case Bishop => bishops
      case Rook => rooks
      case Queen => queens
      case King => kings
    }
  }

  datatype Position = Position(white: Army, black: Army, turn: Color, detail: nat) {
    function ArmyOf(c: Color): Army {
      if c == White then white else black
    }
  }

  /** A move in UCI notation. python-chess never produces an empty UCI string. */
  type Uci = s: string | |s| > 0 witness "0000"

  /** The rules engine's operations on immutable positions. */
  datatype Rules = Rules(
    initial: Position,
    legalMoves: Position -> seq<Uci>,
    push: (Position, Uci) -> Position,
    isCheckmate: Position -> bool,
    isStalemate: Position -> bool,
    isInsufficientMaterial: Position -> bool,
    isGameOver: Position -> bool,
    fen: Position -> string,
    parseFen: string -> Position)

  /** A python-chess `Board` object: one mutable position, shared by reference. */
  class Board {
    var pos: Position

    /** `chess.Board()` or `chess.Board(fen)`, given the position it starts in. */
    constructor (p: Position)
      ensures pos == p
    {
      pos := p;
    }

    /** `board.copy()`. */
    method Copy() returns (b: Board)
      ensures fresh(b) && b.pos == pos
    {
      b := new Board(pos);
    }

    /** `board.push(move)`. */
    method Push(rules: Rules, m: Uci)
      modifies this
      ensures pos == rules.push(old(pos), m)
    {
      pos := rules.push(pos, m);
    }

    /** `board.reset()`. */
    method Reset(rules: Rules)
      modifies this
      ensures pos == rules.initial
    {
      pos := rules.initial;
    }

    /** `board.set_fen(f)`. */
    method SetFen(rules: Rules, f: string)
      modifies this
      ensures pos == rules.parseFen(f)
    {
      pos := rules.parseFen(f);
    }

    /** `board.turn = c`. */
    method SetTurn(c: Color)
      modifies this
      ensures pos == old(pos).(turn := c)
    {
      pos := pos.(turn := c);
    }
  }
}

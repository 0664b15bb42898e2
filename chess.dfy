/** The value types the core shares: colours, pieces, squares, moves and the
    board as the evaluation and the session controller see it.

    The board's own machinery (bitboards, move generation, make/unmake, FEN
    parsing) is not part of this model: every board operation the core calls
    is a constant of function type whose value is fixed but unknown, so every
    property proved here holds for any board implementation. */
module Chess {
  import opened Wrappers

  datatype Color = White | Black {
    /** The other colour. */
    function Flip(): (c: Color)
      ensures c != this
    {
      if this == White then Black else White
    }
  }

  /** Piece kinds. The source's enumeration numbers them None = -1, Pawn = 0,
      Knight = 1, Bishop = 2, Rook = 3, Queen = 4, King = 5. */
  datatype Piece = None | Pawn | Knight | Bishop | Rook | Queen | King {
    function Ordinal(): (k: int)
      ensures -1 <= k <= 5
      ensures k == -1 <==> this == None
    {
      match this
      case None => -1
      case Pawn => 0
      case Knight => 1
      case Bishop => 2
      case Rook => 3
      case Queen => 4
      case King => 5
    }
  }

  /** The piece whose ordinal is k, if k is the ordinal of some piece (a cast
      of an integer to the Piece enumeration). */
  function PieceOfOrdinal(k: int): (p: Option<Piece>)
    ensures p.Some? <==> -1 <= k <= 5
    ensures p.Some? ==> p.value.Ordinal() == k
  {
    if k == -1 then Some(None)
    else if k == 0 then Some(Pawn)
    else if k == 1 then Some(Knight)
    else if k == 2 then Some(Bishop)
    else if k == 3 then Some(Rook)
    else if k == 4 then Some(Queen)
    else if k == 5 then Some(King)
    else Nothing
  }

  /** A square index a1 = 0 ... h8 = 63. */
  type Square = i: int | 0 <= i < 64

  /** The move type tag (normal, castle, promotion, ...); its encoding belongs
      to the Move type, which is not part of this model. */
  type MoveType(==, 0)

  /** MoveType.Normal and MoveType.Promote. */
  const NormalKind: MoveType
  const PromoteKind: MoveType

  /** A move as the move-ordering container and the controller use it: side,
      moving piece, origin, destination, type, captured piece and promotion
      piece (Piece.None when there is none). */
  datatype Move = Move(stm: Color, piece: Piece, from: Square, to: Square,
                       kind: MoveType, capture: Piece, promote: Piece)
  {
    predicate IsCapture() { capture != None }
    predicate IsPromote() { promote != None }
  }

  /** Move.NullMove. */
  const NullMove: Move

  datatype Cell = Empty | Occupied(color: Color, piece: Piece)

  type Cells = s: seq<Cell> | |s| == 64 witness seq(64, _ => Empty)

  /** Castling rights, en-passant square, clocks and the make/unmake history:
      carried by the board but not inspected by the core. */
  type BoardRest(==)

  /** The position: the contents of every square, the side to move, the
      square of each king (the board's KingIndex table) and the rest. */
  datatype Board = Board(cells: Cells, sideToMove: Color,
                         whiteKing: Square, blackKing: Square, rest: BoardRest)
  {
    function Opponent(): Color { sideToMove.Flip() }

    function KingIndex(c: Color): Square {
      if c == White then whiteKing else blackKing
    }

    /** PieceBoard(sq).Piece: Piece.None on an empty square. */
    function PieceAt(sq: Square): Piece {
      if cells[sq].Occupied? then cells[sq].piece else None
    }

    /** Units(c): the squares holding a piece of colour c, in ascending order. */
    function Units(c: Color): seq<Square> {
      UnitsBelow(cells, c, |cells|)
    }

    /** All: the occupied squares in ascending order. */
    function All(): seq<Square> {
      OccupiedBelow(cells, |cells|)
    }

    /** PopCount(All): the number of occupied squares. */
    function PieceCount(): nat {
      |All()|
    }
  }

  /** The squares below n holding a piece of colour c, in ascending order. */
  function UnitsBelow(cells: Cells, c: Color, n: nat): seq<Square>
    requires n <= |cells|
  {
    if n == 0 then []
    else if cells[n - 1].Occupied? && cells[n - 1].color == c then UnitsBelow(cells, c, n - 1) + [n - 1]
    else UnitsBelow(cells, c, n - 1)
  }

  /** The occupied squares below n, in ascending order. */
  function OccupiedBelow(cells: Cells, n: nat): seq<Square>
    requires n <= |cells|
  {
    if n == 0 then []
    else if cells[n - 1].Occupied? then OccupiedBelow(cells, n - 1) + [n - 1]
    else OccupiedBelow(cells, n - 1)
  }

  /** Board.LoadFen: the position a description denotes, or Nothing when the
      description is malformed or loading faults. */
  const LoadFen: string -> Option<Board>

  /** Move.TryParse: the move a long-algebraic token denotes in a position. */
  const ParseMove: (Board, string) -> Option<Move>

  /** Board.MakeMove: the position after the move when the board accepts it,
      Nothing (and the board unchanged) when it rejects it. */
  const PlayMove: (Board, Move) -> Option<Board>
}

/** King buckets: the pair of coarse king-location classes that select the
    piece-square sub-tables, one for the friendly king and one for the enemy
    king. */
module KingBucketing {
  import opened Chess

  /** A signed byte. */
  type Int8 = i: int | -128 <= i < 128

  /** SquareIndex.Normalize(color): the square as seen from that colour's
      side of the board (external). */
  const Normalize: (Square, Color) -> Square

  /** SquareIndex.Bucket(): the bucket of a normalized king square (external). */
  const Bucket: Square -> Int8

  /** The raw constructor KingBuckets(friendly, enemy) is the datatype
      constructor itself. */
  datatype KingBuckets = KingBuckets(friendly: Int8, enemy: Int8) {
    /** The same pair seen from the other side: the fields exchange places. */
    function Flip(): (kb: KingBuckets)
      ensures kb.friendly == enemy && kb.enemy == friendly
    {
      KingBuckets(enemy, friendly)
    }
  }

  /** KingBuckets(friendlyColor, friendlySq, enemySq). */
  function FromSquares(friendlyColor: Color, friendlySq: Square, enemySq: Square): (kb: KingBuckets)
    ensures kb.friendly == Bucket(Normalize(friendlySq, friendlyColor))
    ensures kb.enemy == Bucket(Normalize(enemySq, friendlyColor.Flip()))
  {
    KingBuckets(Bucket(Normalize(friendlySq, friendlyColor)),
                Bucket(Normalize(enemySq, friendlyColor.Flip())))
  }

  /** KingBuckets(board): the side to move is the friendly side. The source
      reads each king's square as the lowest bit of that side's king
      bitboard, which on a board is the square its KingIndex table records. */
  function FromBoard(board: Board): (kb: KingBuckets)
    ensures kb == FromSquares(board.sideToMove, board.KingIndex(board.sideToMove),
                              board.KingIndex(board.Opponent()))
  {
    KingBuckets(Bucket(Normalize(board.KingIndex(board.sideToMove), board.sideToMove)),
                Bucket(Normalize(board.KingIndex(board.Opponent()), board.Opponent())))
  }

  /** Flip is an involution. */
  lemma FlipInvolution(kb: KingBuckets)
    ensures kb.Flip().Flip() == kb
  {
  }

  /** Flipping the buckets of one side gives the buckets of the other side:
      the mirror transform never introduces an asymmetry. */
  lemma FlipSwapsSides(c: Color, a: Square, b: Square)
    ensures FromSquares(c, a, b).Flip() == FromSquares(c.Flip(), b, a)
  {
  }

  /** The buckets computed from a board, flipped, are the buckets of the same
      board seen by the side not to move. */
  lemma FromBoardFlip(board: Board)
    ensures FromBoard(board).Flip()
         == FromSquares(board.Opponent(), board.KingIndex(board.Opponent()),
                        board.KingIndex(board.sideToMove))
  {
    FlipSwapsSides(board.sideToMove, board.KingIndex(board.sideToMove),
                   board.KingIndex(board.Opponent()));
  }
}

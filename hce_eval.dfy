/** The hand-crafted evaluation: material plus king-bucketed piece-square
    values, tapered by a game phase that is kept up to date move by move and
    saved into, and restored from, the board's per-ply snapshot. */
module Hce {
  import opened Chess
  import opened KingBucketing

  /** An opening/endgame score pair. */
  datatype Score = Score(mg: int, eg: int) {
    function Plus(o: Score): Score { Score(mg + o.mg, eg + o.eg) }
    function Neg(): Score { Score(-mg, -eg) }
    function Minus(o: Score): Score { Score(mg - o.mg, eg - o.eg) }
  }

  const Zero := Score(0, 0)

  /** The weight table: material value and the friendly and enemy
      piece-square deltas, indexed by king buckets. */
  datatype Weights = Weights(pieceValue: Piece -> Score,
                             friendlyPst: (Piece, KingBuckets, Square) -> Score,
                             enemyPst: (Piece, KingBuckets, Square) -> Score)

  /** The built-in weight table used when none has been loaded (external). */
  const DefaultWeights: Weights

  /** Piece.PhaseValue(): the piece's weight in the game phase (external). */
  const PhaseValue: Piece -> int

  /** Score.NormalizeScore(phase): blends the pair by the phase (external). */
  const NormalizeScore: (Score, int) -> int

  /** A byte of the board's per-ply snapshot. */
  type Byte = i: int | 0 <= i < 256

  /** The rest of Board.BoardState, untouched by the evaluation. */
  type SnapshotRest(==)

  /** Board.BoardState as the evaluation sees it. */
  datatype PlyState = PlyState(phase: Byte, rest: SnapshotRest)

  // ---------------------------------------------------------------------
  // Integer widths

  /** The value a C# short holds after an assignment of x (two's-complement
      wrap-around). */
  function ToShort(x: int): (r: int)
    ensures -32768 <= r < 32768
    ensures -32768 <= x < 32768 ==> r == x
  {
    (x + 32768) % 65536 - 32768
  }

  /** The (byte) cast: the low eight bits. */
  function ToByte(x: int): (r: Byte)
    ensures 0 <= x < 256 ==> r == x
  {
    x % 256
  }

  /** Math.Clamp. */
  function Clamp(x: int, lo: int, hi: int): (r: int)
    requires lo <= hi
    ensures lo <= r <= hi
    ensures lo <= x <= hi ==> r == x
  {
    if x < lo then lo else if x > hi then hi else x
  }

  /** Wrapping after every addition is wrapping once at the end. */
  lemma ToShortAdd(x: int, y: int)
    ensures ToShort(ToShort(x) + y) == ToShort(x + y)
  {
    var q := (x + 32768) / 65536;
    assert ToShort(x) + y == x + y - 65536 * q;
    ModShift(x + y + 32768, q);
  }

  lemma ModShift(a: int, q: int)
    ensures (a - 65536 * q) % 65536 == a % 65536
    decreases if q < 0 then -q else q
  {
    if q > 0 {
      ModShift(a, q - 1);
      assert a - 65536 * q == (a - 65536 * (q - 1)) - 65536;
    } else if q < 0 {
      ModShift(a, q + 1);
      assert a - 65536 * q == (a - 65536 * (q + 1)) + 65536;
    }
  }

  // ---------------------------------------------------------------------
  // Static evaluation

  /** signs[c]: White's contributions count positively, Black's negatively. */
  function Sign(c: Color, s: Score): (r: Score)
    ensures c == White ==> r == s
    ensures c == Black ==> r.Plus(s) == Zero
  {
    if c == White then s else s.Neg()
  }

  /** The buckets each colour's contribution is scored with. */
  function BucketsFor(board: Board, c: Color): KingBuckets {
    FromSquares(c, board.KingIndex(c), board.KingIndex(c.Flip()))
  }

  /** Material plus friendly and enemy piece-square values over some squares. */
  function EvalSquares(w: Weights, board: Board, kb: KingBuckets, sqs: seq<Square>): Score {
    if sqs == [] then Zero
    else
      var p := board.PieceAt(sqs[0]);
      w.pieceValue(p).Plus(w.friendlyPst(p, kb, sqs[0])).Plus(w.enemyPst(p, kb, sqs[0]))
        .Plus(EvalSquares(w, board, kb, sqs[1..]))
  }

  /** The evaluation is additive over the squares it is given. */
  lemma {:induction false} EvalSquaresAppend(w: Weights, board: Board, kb: KingBuckets,
                                             a: seq<Square>, b: seq<Square>)
    ensures EvalSquares(w, board, kb, a + b)
         == EvalSquares(w, board, kb, a).Plus(EvalSquares(w, board, kb, b))
  {
    if a == [] {
      assert a + b == b;
    } else {
      assert (a + b)[0] == a[0];
      assert (a + b)[1..] == a[1..] + b;
      EvalSquaresAppend(w, board, kb, a[1..], b);
      var p := board.PieceAt(a[0]);
      var h := w.pieceValue(p).Plus(w.friendlyPst(p, kb, a[0])).Plus(w.enemyPst(p, kb, a[0]));
      assert EvalSquares(w, board, kb, a + b) == h.Plus(EvalSquares(w, board, kb, a[1..] + b));
      assert EvalSquares(w, board, kb, a) == h.Plus(EvalSquares(w, board, kb, a[1..]));
    }
  }

  /** One colour's contribution, scored with that colour's king buckets. */
  function Side(w: Weights, board: Board, c: Color): Score {
    EvalSquares(w, board, BucketsFor(board, c), board.Units(c))
  }

  /** The loop over both colours in Compute: each colour's sum, signed. */
  function Balance(w: Weights, board: Board): Score {
    Zero.Plus(Sign(White, Side(w, board, White))).Plus(Sign(Black, Side(w, board, Black)))
  }

  lemma BalanceIsDifference(x: Score, y: Score)
    ensures Zero.Plus(Sign(White, x)).Plus(Sign(Black, y)) == x.Minus(y)
  {
  }

  /** The material balance from the side to move's point of view, before the
      phase blend: White's sum minus Black's for White, the negation for Black. */
  function Relative(w: Weights, board: Board): (r: Score)
    ensures var d := Side(w, board, White).Minus(Side(w, board, Black));
            r == if board.sideToMove == White then d else d.Neg()
  {
    BalanceIsDifference(Side(w, board, White), Side(w, board, Black));
    Sign(board.sideToMove, Balance(w, board))
  }

  /** The contributions do not depend on whose turn it is. */
  lemma SideIgnoresTurn(w: Weights, board: Board, c: Color, stm: Color)
    ensures Side(w, board.(sideToMove := stm), c) == Side(w, board, c)
  {
    var b2 := board.(sideToMove := stm);
    assert b2.Units(c) == board.Units(c);
    assert forall sq: Square :: b2.PieceAt(sq) == board.PieceAt(sq);
    assert BucketsFor(b2, c) == BucketsFor(board, c);
    SquaresIgnoreTurn(w, board, stm, BucketsFor(board, c), board.Units(c));
  }

  lemma {:induction false} SquaresIgnoreTurn(w: Weights, board: Board, stm: Color, kb: KingBuckets, sqs: seq<Square>)
    ensures EvalSquares(w, board.(sideToMove := stm), kb, sqs) == EvalSquares(w, board, kb, sqs)
  {
    if sqs != [] {
      SquaresIgnoreTurn(w, board, stm, kb, sqs[1..]);
    }
  }

  /** The same position scored for the other side to move is the negation. */
  lemma RelativeAntisymmetric(w: Weights, board: Board)
    ensures Relative(w, board.(sideToMove := board.sideToMove.Flip())) == Relative(w, board).Neg()
  {
    var b2 := board.(sideToMove := board.sideToMove.Flip());
    SideIgnoresTurn(w, board, White, board.sideToMove.Flip());
    SideIgnoresTurn(w, board, Black, board.sideToMove.Flip());
    var d := Side(w, board, White).Minus(Side(w, board, Black));
    assert Side(w, b2, White).Minus(Side(w, b2, Black)) == d;
    NegNeg(d);
  }

  lemma NegNeg(x: Score)
    ensures x.Neg().Neg() == x
  {
  }

  // ---------------------------------------------------------------------
  // The phase

  /** The phase sum over some squares, before any wrap-around. */
  function SumPhase(board: Board, sqs: seq<Square>): int {
    if sqs == [] then 0
    else SumPhase(board, sqs[..|sqs| - 1]) + PhaseValue(board.PieceAt(sqs[|sqs| - 1]))
  }

  /** The phase of a whole board: the sum of PhaseValue over every occupied
      square, with no clamping. */
  function BoardPhase(board: Board): int {
    SumPhase(board, board.All())
  }

  /** The promotion adjustment of Update(move). */
  function PromotePhase(phase: int, move: Move): int {
    if move.IsPromote()
    then Clamp(ToShort(phase + ToShort(PhaseValue(move.promote) - PhaseValue(Pawn))), 0, 64)
    else phase
  }

  /** The capture adjustment of Update(move). */
  function CapturePhase(phase: int, move: Move): int {
    if move.IsCapture()
    then Clamp(ToShort(phase - PhaseValue(move.capture)), 0, 64)
    else phase
  }

  /** Update(move): the promotion adjustment first, then the capture one. */
  function PhaseAfter(phase: int, move: Move): (r: int)
    ensures move.IsPromote() || move.IsCapture() ==> 0 <= r <= 64
    ensures !move.IsPromote() && !move.IsCapture() ==> r == phase
  {
    CapturePhase(PromotePhase(phase, move), move)
  }

  /** Without wrap-around, a promotion moves the phase by the promoted
      piece's weight less a pawn's, a capture by minus the captured piece's
      weight, each clamped to [0, 64]. Each bound below concerns only an
      adjustment the move actually makes. */
  lemma PhaseAfterArithmetic(phase: int, move: Move)
    requires move.IsPromote() ==>
               -32768 <= PhaseValue(move.promote) - PhaseValue(Pawn) < 32768
               && -32768 <= phase + PhaseValue(move.promote) - PhaseValue(Pawn) < 32768
    requires move.IsCapture() ==>
               var before := if move.IsPromote()
                             then Clamp(phase + PhaseValue(move.promote) - PhaseValue(Pawn), 0, 64)
                             else phase;
               -32768 <= before - PhaseValue(move.capture) < 32768
    ensures move.IsPromote() && !move.IsCapture() ==>
              PhaseAfter(phase, move) == Clamp(phase + PhaseValue(move.promote) - PhaseValue(Pawn), 0, 64)
    ensures move.IsCapture() && !move.IsPromote() ==>
              PhaseAfter(phase, move) == Clamp(phase - PhaseValue(move.capture), 0, 64)
    ensures move.IsCapture() && move.IsPromote() ==>
              PhaseAfter(phase, move)
              == Clamp(Clamp(phase + PhaseValue(move.promote) - PhaseValue(Pawn), 0, 64)
                       - PhaseValue(move.capture), 0, 64)
  {
  }

  /** The phase after a sequence of moves. */
  function PhaseAfterMoves(phase: int, moves: seq<Move>): int
    decreases |moves|
  {
    if moves == [] then phase else PhaseAfterMoves(PhaseAfter(phase, moves[0]), moves[1..])
  }

  /** Once a capture or a promotion has been played, or whenever the phase
      starts inside [0, 64], it stays inside [0, 64] however many moves follow. */
  lemma {:induction false} PhaseStaysClamped(phase: int, moves: seq<Move>)
    requires (0 <= phase <= 64) || (exists i :: 0 <= i < |moves| && (moves[i].IsCapture() || moves[i].IsPromote()))
    ensures 0 <= PhaseAfterMoves(phase, moves) <= 64
    decreases |moves|
  {
    if moves != [] {
      var next := PhaseAfter(phase, moves[0]);
      if !(0 <= next <= 64) {
        var i :| 0 <= i < |moves| && (moves[i].IsCapture() || moves[i].IsPromote());
        assert i != 0;
        assert moves[1..][i - 1] == moves[i];
      }
      PhaseStaysClamped(next, moves[1..]);
    }
  }

  // ---------------------------------------------------------------------
  // The phase across make and unmake

  /** Make pushes the board's snapshot (SaveState) and applies Update(move);
      Unmake pops the snapshot and applies RestoreState. */
  datatype PlyOp = MakePly(move: Move) | UnmakePly

  /** The evaluation's phase and the phase bytes on the board's snapshot stack. */
  datatype PlyStack = PlyStack(phase: int, saved: seq<Byte>)

  function StepPly(st: PlyStack, op: PlyOp): PlyStack {
    match op
    case MakePly(m) => PlyStack(PhaseAfter(st.phase, m), st.saved + [ToByte(st.phase)])
    case UnmakePly =>
      if st.saved == [] then st
      else PlyStack(st.saved[|st.saved| - 1], st.saved[..|st.saved| - 1])
  }

  function RunPlies(st: PlyStack, ops: seq<PlyOp>): PlyStack {
    if ops == [] then st else StepPly(RunPlies(st, ops[..|ops| - 1]), ops[|ops| - 1])
  }

  /** Makes minus unmakes. */
  function Depth(ops: seq<PlyOp>): int {
    if ops == [] then 0
    else Depth(ops[..|ops| - 1]) + (if ops[|ops| - 1].MakePly? then 1 else -1)
  }

  /** No prefix unmakes more plies than it made: the caller's push/pop discipline. */
  ghost predicate NeverBelow(ops: seq<PlyOp>) {
    forall k :: 0 <= k <= |ops| ==> Depth(ops[..k]) >= 0
  }

  lemma {:induction false} RunPliesAppend(st: PlyStack, a: seq<PlyOp>, b: seq<PlyOp>)
    ensures RunPlies(st, a + b) == RunPlies(RunPlies(st, a), b)
  {
    if b != [] {
      assert (a + b)[..|a + b| - 1] == a + b[..|b| - 1];
      RunPliesAppend(st, a, b[..|b| - 1]);
    } else {
      assert a + b == a;
    }
  }

  /** A disciplined run never disturbs the snapshots below its starting
      depth, and leaves Depth(ops) more of them. */
  lemma {:induction false} StackBelowKept(st: PlyStack, ops: seq<PlyOp>)
    requires NeverBelow(ops)
    ensures Depth(ops) >= 0
    ensures |RunPlies(st, ops).saved| == |st.saved| + Depth(ops)
    ensures RunPlies(st, ops).saved[..|st.saved|] == st.saved
  {
    if ops != [] {
      var pre := ops[..|ops| - 1];
      forall k | 0 <= k <= |pre|
        ensures Depth(pre[..k]) >= 0
      {
        assert pre[..k] == ops[..k];
      }
      assert ops[..|ops|] == ops;
      StackBelowKept(st, pre);
      var mid := RunPlies(st, pre);
      if ops[|ops| - 1].UnmakePly? {
        assert |mid.saved| > |st.saved|;
        assert mid.saved[..|mid.saved| - 1][..|st.saved|] == mid.saved[..|st.saved|];
      } else {
        assert (mid.saved + [ToByte(mid.phase)])[..|st.saved|] == mid.saved[..|st.saved|];
      }
    }
  }

  /** RestoreState gives back exactly the byte SaveState stored at the
      matching make, whatever disciplined, balanced sequence of makes and
      unmakes happened in between; the stack below is as it was. */
  lemma MatchedUnmakeRestores(st: PlyStack, m: Move, inner: seq<PlyOp>)
    requires NeverBelow(inner) && Depth(inner) == 0
    ensures RunPlies(st, [MakePly(m)] + inner + [UnmakePly]) == PlyStack(ToByte(st.phase), st.saved)
  {
    var ops := [MakePly(m)] + inner + [UnmakePly];
    assert ops[..|ops| - 1] == [MakePly(m)] + inner;
    RunPliesAppend(st, [MakePly(m)], inner);
    assert [MakePly(m)][..0] == [];
    var st1 := StepPly(st, MakePly(m));
    assert RunPlies(st, [MakePly(m)]) == st1;
    StackBelowKept(st1, inner);
    var mid := RunPlies(st1, inner);
    assert mid.saved == mid.saved[..|st1.saved|] == st1.saved;
  }

  /** For every phase a byte can hold, in particular every clamped phase in
      [0, 64], the round trip is exact. */
  lemma MatchedUnmakeRoundTrip(st: PlyStack, m: Move, inner: seq<PlyOp>)
    requires 0 <= st.phase < 256
    requires NeverBelow(inner) && Depth(inner) == 0
    ensures RunPlies(st, [MakePly(m)] + inner + [UnmakePly]) == st
  {
    MatchedUnmakeRestores(st, m, inner);
  }

  // ---------------------------------------------------------------------
  // The evaluator

  class HceEval {
    /** The game phase, a short. */
    var phase: int

    constructor ()
      ensures phase == 0
    {
      phase := 0;
    }

    /** Compute: the signed balance of both colours, from the side to move's
        point of view, blended by the current phase. Reads the phase and
        changes nothing. */
    method Compute(w: Weights, board: Board) returns (r: int)
      ensures var d := Side(w, board, White).Minus(Side(w, board, Black));
              r == NormalizeScore(if board.sideToMove == White then d else d.Neg(), phase)
    {
      var score := Zero;
      // The loop over the two colours, White first.
      var white := EvalMaterialAndPst(w, White, board, BucketsFor(board, White));
      score := score.Plus(Sign(White, white));
      var black := EvalMaterialAndPst(w, Black, board, BucketsFor(board, Black));
      score := score.Plus(Sign(Black, black));
      assert score == Balance(w, board);
      r := NormalizeScore(Sign(board.sideToMove, score), phase);
      assert Sign(board.sideToMove, score) == Relative(w, board);
    }

    /** EvalMaterialAndPst: material plus friendly and enemy piece-square
        values, accumulated over the squares of one colour's pieces. */
    method EvalMaterialAndPst(w: Weights, c: Color, board: Board, kb: KingBuckets) returns (score: Score)
      ensures score == EvalSquares(w, board, kb, board.Units(c))
    {
      score := Zero;
      var units := board.Units(c);
      for i := 0 to |units|
        invariant score == EvalSquares(w, board, kb, units[..i])
      {
        var from := units[i];
        var piece := board.PieceAt(from);
        assert units[..i + 1] == units[..i] + [from];
        EvalSquaresAppend(w, board, kb, units[..i], [from]);
        score := score.Plus(w.pieceValue(piece));
        score := score.Plus(w.friendlyPst(piece, kb, from));
        score := score.Plus(w.enemyPst(piece, kb, from));
      }
      assert units[..|units|] == units;
    }

    /** Update(board): recomputes the phase from scratch. */
    method UpdateBoard(board: Board)
      modifies this
      ensures phase == ToShort(BoardPhase(board))
    {
      phase := 0;
      var all := board.All();
      for i := 0 to |all|
        invariant phase == ToShort(SumPhase(board, all[..i]))
      {
        assert all[..i + 1][..i] == all[..i];
        ToShortAdd(SumPhase(board, all[..i]), PhaseValue(board.PieceAt(all[i])));
        phase := ToShort(phase + PhaseValue(board.PieceAt(all[i])));
      }
      assert all[..|all|] == all;
    }

    /** Update(move): incremental adjustment with clamping. */
    method UpdateMove(move: Move)
      modifies this
      ensures phase == PhaseAfter(old(phase), move)
      ensures move.IsPromote() || move.IsCapture() ==> 0 <= phase <= 64
      ensures !move.IsPromote() && !move.IsCapture() ==> phase == old(phase)
    {
      if move.IsPromote() {
        phase := ToShort(phase + ToShort(PhaseValue(move.promote) - PhaseValue(Pawn)));
        phase := Clamp(phase, 0, 64);
      }
      if move.IsCapture() {
        phase := ToShort(phase - PhaseValue(move.capture));
        phase := Clamp(phase, 0, 64);
      }
    }

    /** SaveState: writes the phase, cast to a byte, into the snapshot. */
    method SaveState(state: PlyState) returns (saved: PlyState)
      ensures saved.rest == state.rest
      ensures saved.phase == ToByte(phase)
      ensures 0 <= phase < 256 ==> saved.phase == phase
    {
      saved := state.(phase := ToByte(phase));
    }

    /** RestoreState: reads the phase back from the snapshot. */
    method RestoreState(state: PlyState)
      modifies this
      ensures phase == state.phase
    {
      phase := state.phase;
    }
  }
}

/** The session controller: engine lifecycle flags, the exact tablebase
    shortcut against full search, hash-table lifecycle, weight loading and
    the application of position commands.

    The worker pool, the hash table, the time controller and the reporting
    sink are collaborators whose calls are recorded, in order, in one event
    trace; the tablebase library and the board's operations are constants of
    function type whose values are unknown. */
module Engines {
  import opened Wrappers
  import opened Chess
  import MoveLists
  import Hce

  // ---------------------------------------------------------------------
  // The tablebase shortcut

  /** The categorical outcome of a root probe. */
  datatype Wdl = Loss | BlessedLoss | Draw | CursedWin | Win

  /** The promotion code of a root probe result (a three-bit field). */
  type Promotes = p: int | 0 <= p < 8

  /** Syzygy's root result: outcome, origin and destination square indices
      and promotion code. */
  datatype TbResult = TbResult(wdl: Wdl, from: int, to: int, promotes: Promotes)

  /** Syzygy.ProbeRoot applied to the position's bitboards, clocks, castling
      rights, en-passant square and side to move (a foreign library). */
  const ProbeRoot: Board -> TbResult

  /** Board.GenerateMoves: never more moves than the container holds. */
  type GeneratedMoves = s: seq<Move> | |s| <= MoveLists.CAPACITY

  const GenerateMoves: Board -> GeneratedMoves

  type Positive = i: int | i > 0 witness 1

  /** The mate-scale score of the source's Constants. */
  const CHECKMATE_SCORE: Positive

  /** UciOptions.SyzygyProbeRoot, Syzygy.IsInitialized and Syzygy.TbLargest. */
  datatype TbSettings = TbSettings(probeRoot: bool, initialized: bool, largest: int)

  /** The promotion piece a probe's code stands for: the code c denotes the
      piece of ordinal 5 - c, with King read as no promotion. */
  function DecodePromote(promotes: Promotes): (p: Option<Piece>)
    ensures promotes == 0 ==> p == Some(None)
    ensures promotes == 1 ==> p == Some(Queen)
    ensures promotes == 2 ==> p == Some(Rook)
    ensures promotes == 3 ==> p == Some(Bishop)
    ensures promotes == 4 ==> p == Some(Knight)
    ensures p.Some? ==> p.value != King
  {
    var q := PieceOfOrdinal(5 - promotes);
    if q == Some(King) then Some(None) else q
  }

  /** Probing is attempted only when enabled, initialized and the position has
      few enough pieces. */
  predicate Eligible(cfg: TbSettings, b: Board) {
    cfg.probeRoot && cfg.initialized && b.PieceCount() <= cfg.largest
  }

  /** A generated move agrees with the probe on origin, destination and promotion. */
  predicate Matches(m: Move, r: TbResult) {
    m.from == r.from && m.to == r.to && DecodePromote(r.promotes) == Some(m.promote)
  }

  predicate Accepted(b: Board, m: Move, r: TbResult) {
    Matches(m, r) && PlayMove(b, m).Some?
  }

  /** The index of the first move of ms, from index n on, that matches the
      probe and that the board accepts, or |ms| when there is none. */
  function FirstAccepted(b: Board, ms: seq<Move>, r: TbResult, n: nat): nat
    requires n <= |ms|
    decreases |ms| - n
  {
    if n == |ms| then n
    else if Accepted(b, ms[n], r) then n
    else FirstAccepted(b, ms, r, n + 1)
  }

  /** FirstAccepted finds the first accepted move from n on: it is in range
      or one past the end, the move there is accepted, none between n and
      it is. */
  lemma {:induction false} FirstAcceptedSpec(b: Board, ms: seq<Move>, r: TbResult, n: nat)
    requires n <= |ms|
    ensures var k := FirstAccepted(b, ms, r, n);
            && n <= k <= |ms|
            && (k < |ms| ==> Accepted(b, ms[k], r))
            && (forall j :: n <= j < k ==> !Accepted(b, ms[j], r))
    decreases |ms| - n
  {
    if n < |ms| && !Accepted(b, ms[n], r) {
      FirstAcceptedSpec(b, ms, r, n + 1);
    }
  }

  datatype TbHit = TbHit(move: Move, wdl: Wdl)

  /** What ProbeRootTb finds in a position: the first generated move the
      probe's result designates and the board accepts, with the outcome. */
  function RootHit(cfg: TbSettings, b: Board): Option<TbHit> {
    if !Eligible(cfg, b) then Nothing
    else
      var ms, res := GenerateMoves(b), ProbeRoot(b);
      var k := FirstAccepted(b, ms, res, 0);
      if k < |ms| then Some(TbHit(ms[k], res.wdl)) else Nothing
  }

  /** A root hit exists exactly when probing is eligible and some generated
      move matches the probe and is accepted; the hit is such a move, the
      first of them, and carries the probe's outcome. */
  lemma RootHitSpec(cfg: TbSettings, b: Board)
    ensures var r := RootHit(cfg, b);
            && (r.Some? ==> Eligible(cfg, b))
            && (r.Some? ==> r.value.move in GenerateMoves(b) && Accepted(b, r.value.move, ProbeRoot(b)))
            && (r.Some? ==> r.value.wdl == ProbeRoot(b).wdl)
            && (r.Some? ==> exists k :: 0 <= k < |GenerateMoves(b)| && GenerateMoves(b)[k] == r.value.move
                              && forall j :: 0 <= j < k ==> !Accepted(b, GenerateMoves(b)[j], ProbeRoot(b)))
            && (r.Nothing? <==>
                  !Eligible(cfg, b) || forall m :: m in GenerateMoves(b) ==> !Accepted(b, m, ProbeRoot(b)))
  {
    if Eligible(cfg, b) {
      var ms, res := GenerateMoves(b), ProbeRoot(b);
      var k := FirstAccepted(b, ms, res, 0);
      FirstAcceptedSpec(b, ms, res, 0);
      if k == |ms| {
        forall m | m in ms
          ensures !Accepted(b, m, res)
        {
          var j :| 0 <= j < |ms| && ms[j] == m;
        }
      }
    }
  }

  /** A root probe: what the tablebase gives in a position. */
  type Prober = Board -> Option<TbHit>

  /** The root probe ProbeRootTb computes under the given settings. */
  function RootProbe(cfg: TbSettings): Prober {
    b => RootHit(cfg, b)
  }

  /** The position after a move the board may reject (it then stays as it is). */
  function AfterMove(b: Board, m: Move): Board {
    PlayMove(b, m).GetOr(b)
  }

  /** The position after a line of moves. */
  function Replay(b: Board, ms: seq<Move>): Board
    decreases |ms|
  {
    if ms == [] then b else Replay(AfterMove(b, ms[0]), ms[1..])
  }

  /** The principal variation ProbePvTb writes from move m onward, with room
      for budget moves: each move is played on a copy of the board, which is
      then probed again; the line ends at the first failed probe or when the
      room runs out. */
  function TbLine(probe: Prober, b: Board, m: Move, budget: nat): (line: seq<Move>)
    ensures |line| <= budget
    ensures budget > 0 ==> |line| >= 1 && line[0] == m
    decreases budget
  {
    if budget == 0 then []
    else
      var after := AfterMove(b, m);
      match probe(after)
      case Nothing => [m]
      case Some(h) => [m] + TbLine(probe, after, h.move, budget - 1)
  }

  /** Every move of the line after the first is the move the tablebase gives
      in the position reached by the moves before it. */
  lemma {:induction false} TbLineFollowsProbes(probe: Prober, b: Board, m: Move, budget: nat, i: nat)
    requires i + 1 < |TbLine(probe, b, m, budget)|
    decreases budget
    ensures var line := TbLine(probe, b, m, budget);
            probe(Replay(b, line[..i + 1])).Some?
            && probe(Replay(b, line[..i + 1])).value.move == line[i + 1]
  {
    var line := TbLine(probe, b, m, budget);
    var after := AfterMove(b, m);
    var h := probe(after);
    assert h.Some?;
    var rest := TbLine(probe, after, h.value.move, budget - 1);
    assert line == [m] + rest;
    assert line[..i + 1] == [m] + rest[..i];
    assert Replay(b, line[..i + 1]) == Replay(after, rest[..i]) by {
      assert ([m] + rest[..i])[1..] == rest[..i];
    }
    if i > 0 {
      TbLineFollowsProbes(probe, after, h.value.move, budget - 1, i - 1);
      assert rest[..i] == rest[..i - 1 + 1];
    } else {
      assert Replay(after, []) == after;
    }
  }

  /** A line shorter than its room ended because the next probe failed. */
  lemma {:induction false} TbLineStopsAtMiss(probe: Prober, b: Board, m: Move, budget: nat)
    requires |TbLine(probe, b, m, budget)| < budget
    ensures probe(Replay(b, TbLine(probe, b, m, budget))).Nothing?
    decreases budget
  {
    var line := TbLine(probe, b, m, budget);
    var after := AfterMove(b, m);
    assert Replay(b, [m]) == after by {
      assert [m][1..] == [];
    }
    match probe(after)
    case Nothing =>
      assert line == [m];
    case Some(h) =>
      var rest := TbLine(probe, after, h.move, budget - 1);
      assert line == [m] + rest;
      assert line[1..] == rest;
      TbLineStopsAtMiss(probe, after, h.move, budget - 1);
  }

  /** Replaying one more move is one more step from where the replay ended. */
  lemma {:induction false} ReplayAppend(b: Board, xs: seq<Move>, x: Move)
    ensures Replay(b, xs + [x]) == AfterMove(Replay(b, xs), x)
    decreases |xs|
  {
    if xs == [] {
      assert [x][1..] == [];
    } else {
      assert (xs + [x])[0] == xs[0];
      assert (xs + [x])[1..] == xs[1..] + [x];
      ReplayAppend(AfterMove(b, xs[0]), xs[1..], x);
    }
  }

  /** What the probe after the first n + 1 moves of the line says about the
      line: a failed probe means the line ends there; a hit, with room left,
      is the next move of the line. */
  lemma TbLineNext(probe: Prober, b: Board, m: Move, budget: nat, n: nat, next: Option<TbHit>)
    requires n < |TbLine(probe, b, m, budget)|
    requires next == probe(Replay(b, TbLine(probe, b, m, budget)[..n + 1]))
    ensures next.Nothing? ==> |TbLine(probe, b, m, budget)| == n + 1
    ensures next.Some? && n + 1 < budget ==>
              n + 1 < |TbLine(probe, b, m, budget)| && TbLine(probe, b, m, budget)[n + 1] == next.value.move
  {
    var line := TbLine(probe, b, m, budget);
    if n + 1 < |line| {
      TbLineFollowsProbes(probe, b, m, budget, n);
    } else if n + 1 < budget {
      assert line[..n + 1] == line;
      TbLineStopsAtMiss(probe, b, m, budget);
    }
  }

  /** The root score: wins (cursed or not) score +CHECKMATE_SCORE, losses
      (blessed or not) -CHECKMATE_SCORE, a draw 0. */
  function WdlScore(wdl: Wdl): (score: int)
    ensures score == CHECKMATE_SCORE <==> wdl == CursedWin || wdl == Win
    ensures score == -(CHECKMATE_SCORE as int) <==> wdl == Loss || wdl == BlessedLoss
    ensures score == 0 <==> wdl == Draw
  {
    match wdl
    case Loss => -(CHECKMATE_SCORE as int)
    case BlessedLoss => -(CHECKMATE_SCORE as int)
    case Draw => 0
    case CursedWin => CHECKMATE_SCORE
    case Win => CHECKMATE_SCORE
  }

  /** ProbeRootTb: generates the moves into a fresh container, probes the
      tablebase and returns the first generated move that matches the probe
      and that the board accepts (the move is made and unmade again). */
  method ProbeRootTb(cfg: TbSettings, b: Board) returns (hit: Option<TbHit>)
    ensures hit == RootHit(cfg, b)
  {
    if !(cfg.probeRoot && cfg.initialized && b.PieceCount() <= cfg.largest) {
      return Nothing;
    }
    var moveList := new MoveLists.MoveList(_ => 0);
    var ms := GenerateMoves(b);
    moveList.AddAll(ms);
    ghost var entries := moveList.Entries();
    assert entries == MoveLists.Scored(moveList.history, ms);
    var result := ProbeRoot(b);
    var promote := DecodePromote(result.promotes);
    ghost var first := FirstAccepted(b, ms, result, 0);
    for n := 0 to moveList.count
      invariant moveList.Valid() && moveList.Entries() == entries && moveList.count == |ms|
      invariant FirstAccepted(b, ms, result, n) == first
    {
      var move := moveList.At(n);
      assert move == ms[n];
      if move.from == result.from && move.to == result.to && promote == Some(move.promote) {
        if PlayMove(b, move).Some? {
          return Some(TbHit(move, result.wdl));
        }
      }
    }
    return Nothing;
  }

  /** ProbePvTb: on a successful root probe, fills pv with the tablebase
      line (at least the root move when pv has room) and gives the root
      score. */
  method ProbePvTb(cfg: TbSettings, b: Board, pv: array<Move>) returns (found: bool, pvLen: int, score: int)
    modifies pv
    ensures found <==> RootHit(cfg, b).Some?
    ensures found ==> 0 <= pvLen <= pv.Length
                      && pv[..pvLen] == TbLine(RootProbe(cfg), b, RootHit(cfg, b).value.move, pv.Length)
    ensures found ==> score == WdlScore(RootHit(cfg, b).value.wdl)
    ensures found && pv.Length > 0 ==> pvLen >= 1 && pv[0] == RootHit(cfg, b).value.move
    ensures !found ==> pvLen == 0 && score == 0
    ensures forall i :: pvLen <= i < pv.Length ==> pv[i] == old(pv[i])
  {
    found, pvLen, score := false, 0, 0;
    var hit := ProbeRootTb(cfg, b);
    if hit.Nothing? {
      return;
    }
    ghost var line := TbLine(RootProbe(cfg), b, hit.value.move, pv.Length);
    var clone := b;
    var move := hit.value.move;
    for ply := 0 to pv.Length
      invariant pvLen == ply <= |line|
      invariant pv[..pvLen] == line[..pvLen]
      invariant ply < pv.Length ==> ply < |line| && move == line[ply]
      invariant clone == Replay(b, line[..pvLen])
      invariant forall i :: pvLen <= i < pv.Length ==> pv[i] == old(pv[i])
    {
      pv[pvLen] := move;
      pvLen := pvLen + 1;
      assert line[..ply + 1] == line[..ply] + [move];
      ReplayAppend(b, line[..ply], move);
      clone := AfterMove(clone, move);
      var next := ProbeRootTb(cfg, clone);
      TbLineNext(RootProbe(cfg), b, hit.value.move, pv.Length, ply, next);
      if next.Nothing? {
        break;
      }
      move := next.value.move;
    }
    assert pv[..pvLen] == line;
    score := WdlScore(hit.value.wdl);
    found := true;
  }

  // ---------------------------------------------------------------------
  // Position commands

  datatype MoveError = InvalidMoveFormat(token: string) | IllegalMove(token: string)

  datatype MoveRun = MoveRun(board: Board, outcome: Outcome<MoveError>)

  /** Applying move tokens left to right: the first token that does not parse
      or that the board rejects stops the run; the moves before it stay
      applied. */
  function ApplyMoves(b: Board, tokens: seq<string>): MoveRun
    decreases |tokens|
  {
    if tokens == [] then MoveRun(b, Pass)
    else match ParseMove(b, tokens[0])
      case Nothing => MoveRun(b, Fail(InvalidMoveFormat(tokens[0])))
      case Some(m) =>
        match PlayMove(b, m)
        case Nothing => MoveRun(b, Fail(IllegalMove(tokens[0])))
        case Some(b2) => ApplyMoves(b2, tokens[1..])
  }

  /** Two batches in a row are one batch: the second starts from where the
      first ended, and a failure in the first ends the whole. */
  lemma {:induction false} ApplyMovesAppend(b: Board, xs: seq<string>, ys: seq<string>)
    ensures var first := ApplyMoves(b, xs);
            ApplyMoves(b, xs + ys)
            == if first.outcome.Pass? then ApplyMoves(first.board, ys) else first
    decreases |xs|
  {
    if xs == [] {
      assert xs + ys == ys;
    } else {
      assert (xs + ys)[0] == xs[0];
      assert (xs + ys)[1..] == xs[1..] + ys;
      match ParseMove(b, xs[0])
      case Nothing =>
      case Some(m) =>
        match PlayMove(b, m)
        case Nothing =>
        case Some(b2) => ApplyMovesAppend(b2, xs[1..], ys);
    }
  }

  /** A failed batch leaves exactly the moves before the failing token applied. */
  lemma {:induction false} FailedBatchKeepsPrefix(b: Board, tokens: seq<string>)
    requires ApplyMoves(b, tokens).outcome.Fail?
    ensures exists k :: 0 <= k < |tokens|
              && ApplyMoves(b, tokens[..k]) == MoveRun(ApplyMoves(b, tokens).board, Pass)
              && ApplyMoves(ApplyMoves(b, tokens).board, [tokens[k]]) == ApplyMoves(b, tokens)
    decreases |tokens|
  {
    assert tokens != [];
    assert tokens[..0] == [];
    match ParseMove(b, tokens[0])
    case Nothing =>
      assert ApplyMoves(b, [tokens[0]]) == ApplyMoves(b, tokens);
    case Some(m) =>
      match PlayMove(b, m)
      case Nothing =>
        assert ApplyMoves(b, [tokens[0]]) == ApplyMoves(b, tokens);
      case Some(b2) =>
        FailedBatchKeepsPrefix(b2, tokens[1..]);
        var k :| 0 <= k < |tokens[1..]|
                 && ApplyMoves(b2, tokens[1..][..k]) == MoveRun(ApplyMoves(b2, tokens[1..]).board, Pass)
                 && ApplyMoves(ApplyMoves(b2, tokens[1..]).board, [tokens[1..][k]]) == ApplyMoves(b2, tokens[1..]);
        assert tokens[..k + 1][0] == tokens[0];
        assert tokens[..k + 1][1..] == tokens[1..][..k];
        assert tokens[k + 1] == tokens[1..][k];
  }

  /** "position startpos moves e2e4 e7e5": two tokens that parse and are
      accepted leave the board after both moves, in order. */
  lemma TwoMovesInOrder(b: Board, t1: string, t2: string, m1: Move, m2: Move, b1: Board, b2: Board)
    requires ParseMove(b, t1) == Some(m1) && PlayMove(b, m1) == Some(b1)
    requires ParseMove(b1, t2) == Some(m2) && PlayMove(b1, m2) == Some(b2)
    ensures ApplyMoves(b, [t1, t2]) == MoveRun(b2, Pass)
  {
    assert [t1, t2][1..] == [t2];
    assert [t2][1..] == [];
    assert ApplyMoves(b1, [t2]) == ApplyMoves(b2, []);
  }

  // ---------------------------------------------------------------------
  // Collaborator calls

  datatype Event =
    | PoolStop
    | PoolWait
    | PoolSearch(maxDepth: int, maxNodes: int)
    | PoolClearEvalCache
    | PoolResizeEvalCache
    | HashClear
    | HashResize
    | ClockGo(maxTime: int, infinite: bool)
    | ClockGoTimed(maxTime: int, opponentTime: int, increment: int, movesToGo: int,
                   movesOutOfBook: int, infinite: bool)
    | ReportInfo(score: int, pv: seq<Move>)
    | ReportBestMove(best: Move, ponder: Move)

  /** The calls Stop makes: cancellation, then a blocking join. */
  const StopCalls := [PoolStop, PoolWait]

  /** Whether, after the first n calls, the worker pool has been joined
      since the last search started. */
  function JoinedUpTo(ev: seq<Event>, n: nat): bool
    requires n <= |ev|
  {
    if n == 0 then true
    else match ev[n - 1]
      case PoolWait => true
      case PoolSearch(_, _) => false
      case _ => JoinedUpTo(ev, n - 1)
  }

  /** Whether the pool has been joined since the last search started. */
  function Joined(ev: seq<Event>): bool {
    JoinedUpTo(ev, |ev|)
  }

  /** At most one search generation at a time: every search is started only
      after the previous one has been joined. */
  ghost predicate OneGeneration(ev: seq<Event>) {
    forall i :: 0 <= i < |ev| && ev[i].PoolSearch? ==> JoinedUpTo(ev, i)
  }

  /** The one-generation discipline checked call by call over the first n
      calls. */
  function DisciplinedUpTo(ev: seq<Event>, n: nat): bool
    requires n <= |ev|
  {
    n == 0 || (DisciplinedUpTo(ev, n - 1) && (ev[n - 1].PoolSearch? ==> JoinedUpTo(ev, n - 1)))
  }

  function Disciplined(ev: seq<Event>): bool {
    DisciplinedUpTo(ev, |ev|)
  }

  lemma {:induction false} DisciplinedUpToMeans(ev: seq<Event>, n: nat)
    requires n <= |ev|
    ensures DisciplinedUpTo(ev, n) <==> forall i :: 0 <= i < n && ev[i].PoolSearch? ==> JoinedUpTo(ev, i)
  {
    if n > 0 {
      DisciplinedUpToMeans(ev, n - 1);
    }
  }

  /** The call-by-call check is exactly the one-generation discipline. */
  lemma DisciplinedIsOneGeneration(ev: seq<Event>)
    ensures Disciplined(ev) <==> OneGeneration(ev)
  {
    DisciplinedUpToMeans(ev, |ev|);
  }

  /** Calls appended later change nothing about the first n calls. */
  lemma {:induction false} PrefixUnaffected(a: seq<Event>, b: seq<Event>, n: nat)
    requires n <= |a|
    ensures JoinedUpTo(a + b, n) == JoinedUpTo(a, n)
    ensures DisciplinedUpTo(a + b, n) == DisciplinedUpTo(a, n)
  {
    if n > 0 {
      assert (a + b)[n - 1] == a[n - 1];
      PrefixUnaffected(a, b, n - 1);
    }
  }

  /** Recording one more call keeps the discipline exactly when a search is
      started only from a joined pool. */
  lemma OneGenerationStep(ev: seq<Event>, e: Event)
    ensures Disciplined(ev + [e]) == (Disciplined(ev) && (e.PoolSearch? ==> Joined(ev)))
    ensures Joined(ev + [e]) == (e == PoolWait || (!e.PoolSearch? && Joined(ev)))
  {
    PrefixUnaffected(ev, [e], |ev|);
  }

  function SearchCount(ev: seq<Event>): nat {
    if ev == [] then 0
    else SearchCount(ev[..|ev| - 1]) + (if ev[|ev| - 1].PoolSearch? then 1 else 0)
  }

  lemma {:induction false} SearchCountAppend(a: seq<Event>, b: seq<Event>)
    ensures SearchCount(a + b) == SearchCount(a) + SearchCount(b)
    decreases |b|
  {
    if b == [] {
      assert a + b == a;
    } else {
      assert (a + b)[..|a + b| - 1] == a + b[..|b| - 1];
      SearchCountAppend(a, b[..|b| - 1]);
    }
  }

  /** The calls StartSearch appends start one search when the tablebase has
      no answer and none when it has, whatever calls came before. */
  lemma StartSearchCount(ev: seq<Event>, probe: Prober, b: Board, analyse: bool, maxDepth: int, maxNodes: int)
    ensures SearchCount(ev + StartCalls(probe, b, analyse, maxDepth, maxNodes))
            == SearchCount(ev) + (if probe(b).Some? then 0 else 1)
  {
    SearchCountAppend(ev, StartCalls(probe, b, analyse, maxDepth, maxNodes));
    StartCallsSpec(probe, b, analyse, maxDepth, maxNodes);
  }

  /** The length of StartSearch's principal-variation buffer. */
  const PV_CAPACITY := 12

  /** The calls StartSearch makes: with a tablebase hit, the line and its
      score are reported and the root move is announced without searching;
      otherwise the tables are cleared first in analysis mode and one search
      is started. */
  function StartCalls(probe: Prober, b: Board, analyse: bool, maxDepth: int, maxNodes: int)
    : seq<Event>
  {
    match probe(b)
    case Some(hit) =>
      [ReportInfo(WdlScore(hit.wdl), TbLine(probe, b, hit.move, PV_CAPACITY)),
       ReportBestMove(hit.move, NullMove)]
    case Nothing =>
      (if analyse then [HashClear, PoolClearEvalCache] else []) + [PoolSearch(maxDepth, maxNodes)]
  }

  // StartCallsOnHit and StartCallsOnMiss unfold StartCalls' two cases for
  // StartSearch, which then need not unfold the tablebase probe itself.
  lemma StartCallsOnHit(probe: Prober, b: Board, analyse: bool, maxDepth: int, maxNodes: int,
                         hit: TbHit)
    requires probe(b) == Some(hit)
    ensures StartCalls(probe, b, analyse, maxDepth, maxNodes)
            == [ReportInfo(WdlScore(hit.wdl), TbLine(probe, b, hit.move, PV_CAPACITY)),
                ReportBestMove(hit.move, NullMove)]
  {
  }

  lemma StartCallsOnMiss(probe: Prober, b: Board, analyse: bool, maxDepth: int, maxNodes: int)
    requires probe(b).Nothing?
    ensures StartCalls(probe, b, analyse, maxDepth, maxNodes)
            == (if analyse then [HashClear, PoolClearEvalCache] else []) + [PoolSearch(maxDepth, maxNodes)]
  {
  }

  /** StartSearch starts exactly one search when the tablebase has no answer
      and none when it has; the last call is the search or the announced
      move, and the search is started from a joined pool. */
  lemma StartCallsSpec(probe: Prober, b: Board, analyse: bool, maxDepth: int, maxNodes: int)
    ensures var calls := StartCalls(probe, b, analyse, maxDepth, maxNodes);
            && SearchCount(calls) == (if probe(b).Some? then 0 else 1)
            && (probe(b).Some? ==>
                  calls[|calls| - 1] == ReportBestMove(probe(b).value.move, NullMove))
            && (probe(b).Nothing? ==> calls[|calls| - 1] == PoolSearch(maxDepth, maxNodes))
            && OneGeneration(calls)
  {
    var calls := StartCalls(probe, b, analyse, maxDepth, maxNodes);
    if probe(b).Some? {
      assert calls[..1] == [calls[0]];
      assert calls[..|calls| - 1] == calls[..1];
    } else if analyse {
      assert calls == [HashClear, PoolClearEvalCache, PoolSearch(maxDepth, maxNodes)];
      var two := [HashClear, PoolClearEvalCache];
      assert calls[..2] == two && two[..1] == [HashClear] && [HashClear][..0] == [];
      assert SearchCount(two) == 0;
      assert calls[..|calls| - 1] == two;
      assert JoinedUpTo(calls, 2);
    } else {
      assert calls == [PoolSearch(maxDepth, maxNodes)];
      assert calls[..0] == [];
    }
  }


  // ---------------------------------------------------------------------
  // The controller

  class Engine {
    var isRunning: bool
    var isPondering: bool
    /** The Infinite option: search without a time limit. */
    var infinite: bool
    var movesOutOfBook: int
    var color: Color
    var board: Board
    /** The time controller's infinite flag. */
    var clockInfinite: bool
    /** The weight table once loaded. */
    var weights: Option<Hce.Weights>
    /** The calls made on the collaborators, oldest first. */
    var events: seq<Event>
    /** UciOptions.AnalyseMode. */
    var analyseMode: bool
    var tb: TbSettings

    ghost predicate Valid()
      reads this
    {
      Disciplined(events)
    }

    /** The static initial state, over a starting board and option values. */
    constructor (start: Board, analyseMode: bool, tb: TbSettings)
      ensures Valid() && events == []
      ensures !isRunning && !isPondering && !infinite && movesOutOfBook == 0 && color == White
      ensures board == start && weights == Nothing && !clockInfinite
      ensures this.analyseMode == analyseMode && this.tb == tb
    {
      isRunning, isPondering, infinite, movesOutOfBook, color := false, false, false, 0, White;
      board, clockInfinite, weights, events := start, false, Nothing, [];
      this.analyseMode, this.tb := analyseMode, tb;
    }

    /** Records one collaborator call. */
    method Emit(e: Event)
      requires Valid() && (e.PoolSearch? ==> Joined(events))
      modifies this`events
      ensures Valid() && events == old(events) + [e]
      ensures Joined(events) == (e == PoolWait || (!e.PoolSearch? && Joined(old(events))))
    {
      OneGenerationStep(events, e);
      events := events + [e];
    }

    /** Stop: cancels the search and blocks until every worker has stopped;
        changes no flag. */
    method Stop()
      requires Valid()
      modifies this`events
      ensures Valid() && events == old(events) + StopCalls && Joined(events)
    {
      Emit(PoolStop);
      Emit(PoolWait);
    }

    method Start()
      requires Valid()
      modifies this`events, this`isRunning
      ensures Valid() && events == old(events) + StopCalls && isRunning
    {
      Stop();
      isRunning := true;
    }

    method Quit()
      requires Valid()
      modifies this`events, this`isRunning
      ensures Valid() && events == old(events) + StopCalls && !isRunning
    {
      Stop();
      isRunning := false;
    }

    method Wait()
      requires Valid()
      modifies this`events
      ensures Valid() && events == old(events) + [PoolWait]
    {
      Emit(PoolWait);
    }

    /** PonderHit: nothing when no search runs; turns a pondering search into
        a timed one in place (no stop, no restart); otherwise the same as Stop. */
    method PonderHit()
      requires Valid()
      modifies this`events, this`isPondering, this`clockInfinite
      ensures Valid()
      ensures !isRunning ==> events == old(events) && isPondering == old(isPondering)
                             && clockInfinite == old(clockInfinite)
      ensures isRunning && old(isPondering) ==> events == old(events) && !isPondering && !clockInfinite
      ensures isRunning && !old(isPondering) ==>
                events == old(events) + StopCalls && !isPondering && clockInfinite == old(clockInfinite)
    {
      if !isRunning {
        return;
      }
      if isPondering {
        isPondering := false;
        clockInfinite := false;
      } else {
        Stop();
      }
    }

    method ClearHashTable()
      requires Valid()
      modifies this`events
      ensures Valid() && events == old(events) + [HashClear, PoolClearEvalCache]
      ensures Joined(events) == Joined(old(events))
    {
      Emit(HashClear);
      Emit(PoolClearEvalCache);
    }

    method ResizeHashTable()
      requires Valid()
      modifies this`events
      ensures Valid() && events == old(events) + [HashResize, PoolResizeEvalCache]
    {
      Emit(HashResize);
      Emit(PoolResizeEvalCache);
    }

    method SetupNewGame()
      requires Valid()
      modifies this`events, this`movesOutOfBook
      ensures Valid() && events == old(events) + StopCalls + [HashClear, PoolClearEvalCache]
      ensures movesOutOfBook == 0
    {
      Stop();
      ClearHashTable();
      movesOutOfBook := 0;
    }

    /** StartSearch: answers from the tablebase when it can, otherwise starts
        the search (counting one more move out of book). */
    method StartSearch(maxDepth: int, maxNodes: int)
      requires Valid() && Joined(events)
      modifies this`events, this`movesOutOfBook, this`isRunning
      ensures Valid()
      ensures events == old(events) + StartCalls(RootProbe(tb), board, analyseMode, maxDepth, maxNodes)
      ensures RootHit(tb, board).Some? ==>
                movesOutOfBook == old(movesOutOfBook) && isRunning == old(isRunning)
      ensures RootHit(tb, board).Nothing? ==> movesOutOfBook == old(movesOutOfBook) + 1 && isRunning
    {
      var pv := new Move[PV_CAPACITY](_ => NullMove);
      var found, pvLen, score := ProbePvTb(tb, board, pv);
      ghost var calls := StartCalls(RootProbe(tb), board, analyseMode, maxDepth, maxNodes);
      if found {
        var line, best := pv[..pvLen], pv[0];
        StartCallsOnHit(RootProbe(tb), board, analyseMode, maxDepth, maxNodes, RootHit(tb, board).value);
        assert calls == [ReportInfo(score, line), ReportBestMove(best, NullMove)];
        Emit(ReportInfo(score, line));
        Emit(ReportBestMove(best, NullMove));
        assert events == old(events) + calls;
        return;
      }
      StartCallsOnMiss(RootProbe(tb), board, analyseMode, maxDepth, maxNodes);
      ghost var clearing: seq<Event> := if analyseMode then [HashClear, PoolClearEvalCache] else [];
      assert calls == clearing + [PoolSearch(maxDepth, maxNodes)];
      if analyseMode {
        ClearHashTable();
      }
      assert events == old(events) + clearing;
      movesOutOfBook := movesOutOfBook + 1;
      Emit(PoolSearch(maxDepth, maxNodes));
      isRunning := true;
      assert events == old(events) + calls;
    }

    /** Go with fixed limits: stops any search, arms the clock (without a
        time limit when pondering or infinite) and starts the search. */
    method Go(maxDepth: int, maxTime: int, maxNodes: int, ponder: bool)
      requires Valid()
      modifies this`events, this`movesOutOfBook, this`isRunning, this`isPondering, this`clockInfinite
      ensures Valid()
      ensures isPondering == ponder && clockInfinite == (ponder || infinite)
      ensures events == old(events) + StopCalls + [ClockGo(maxTime, ponder || infinite)]
                        + StartCalls(RootProbe(tb), board, analyseMode, maxDepth, maxNodes)
      ensures RootHit(tb, board).Some? ==>
                movesOutOfBook == old(movesOutOfBook) && isRunning == old(isRunning)
      ensures RootHit(tb, board).Nothing? ==> movesOutOfBook == old(movesOutOfBook) + 1 && isRunning
    {
      Stop();
      isPondering := ponder;
      clockInfinite := ponder || infinite;
      Emit(ClockGo(maxTime, ponder || infinite));
      StartSearch(maxDepth, maxNodes);
    }

    /** Go under a game clock: as Go, the time budget being derived from the
        remaining times, increment, moves to go and moves out of book. */
    method GoTimed(maxTime: int, opponentTime: int, increment: int, movesToGo: int,
                   maxDepth: int, maxNodes: int, ponder: bool)
      requires Valid()
      modifies this`events, this`movesOutOfBook, this`isRunning, this`isPondering, this`clockInfinite
      ensures Valid()
      ensures isPondering == ponder && clockInfinite == (ponder || infinite)
      ensures events == old(events) + StopCalls
                        + [ClockGoTimed(maxTime, opponentTime, increment, movesToGo,
                                        old(movesOutOfBook), ponder || infinite)]
                        + StartCalls(RootProbe(tb), board, analyseMode, maxDepth, maxNodes)
      ensures RootHit(tb, board).Some? ==>
                movesOutOfBook == old(movesOutOfBook) && isRunning == old(isRunning)
      ensures RootHit(tb, board).Nothing? ==> movesOutOfBook == old(movesOutOfBook) + 1 && isRunning
    {
      Stop();
      isPondering := ponder;
      clockInfinite := ponder || infinite;
      Emit(ClockGoTimed(maxTime, opponentTime, increment, movesToGo, movesOutOfBook, ponder || infinite));
      StartSearch(maxDepth, maxNodes);
    }

    /** SetupPosition: stops any search, then loads the position; on failure
        (a malformed description or a fault while loading) it reports false
        and keeps the previous position. Never fails itself. */
    method SetupPosition(fen: string) returns (loaded: bool)
      requires Valid()
      modifies this`events, this`board, this`color
      ensures Valid() && events == old(events) + StopCalls
      ensures loaded <==> LoadFen(fen).Some?
      ensures loaded ==> board == LoadFen(fen).value && color == board.sideToMove
      ensures !loaded ==> board == old(board) && color == old(color)
    {
      Stop();
      match LoadFen(fen)
      case Some(b) =>
        board := b;
        color := b.sideToMove;
        loaded := true;
      case Nothing =>
        loaded := false;
    }

    /** MakeMoves: applies the move tokens in order; the first bad token ends
        the batch with its error and the moves before it stay applied. The
        side to move is recorded only when every token was applied. */
    method MakeMoves(tokens: seq<string>) returns (outcome: Outcome<MoveError>)
      modifies this`board, this`color
      ensures MoveRun(board, outcome) == ApplyMoves(old(board), tokens)
      ensures color == if outcome.Pass? then board.sideToMove else old(color)
    {
      for i := 0 to |tokens|
        invariant ApplyMoves(board, tokens[i..]) == ApplyMoves(old(board), tokens)
        invariant color == old(color)
      {
        var mv := tokens[i];
        assert tokens[i..][0] == mv && tokens[i..][1..] == tokens[i + 1..];
        match ParseMove(board, mv) {
          case Some(move) =>
            match PlayMove(board, move) {
              case Some(next) =>
                board := next;
              case Nothing =>
                return Fail(IllegalMove(mv));
            }
          case Nothing =>
            return Fail(InvalidMoveFormat(mv));
        }
      }
      assert tokens[|tokens|..] == [];
      color := board.sideToMove;
      return Pass;
    }

    /** The lazy Weights getter: loads on each access until a load succeeds
        (loaded is what reading the weight file gives, Nothing on a fault),
        then keeps that table; the built-in defaults are returned while
        nothing is loaded. */
    method GetWeights(loaded: Option<Hce.Weights>) returns (w: Hce.Weights)
      modifies this`weights
      ensures old(weights).Some? ==> weights == old(weights) && w == old(weights).value
      ensures old(weights).Nothing? ==> weights == loaded && w == loaded.GetOr(Hce.DefaultWeights)
    {
      if weights.Nothing? {
        weights := loaded;
      }
      w := weights.GetOr(Hce.DefaultWeights);
    }
  }
}

# Pedantic chess engine core, modelled in Dafny

This project models the core of the Pedantic UCI chess engine: the
move-ordering buffer, the hand-crafted evaluation's game-phase tracker, the
king-bucket pair, the generation-tagged move and the session controller. It
then proves what these components promise.

- **Move-ordering buffer** (`MoveLists.MoveList`). It is a fixed array of 218
  (move, priority) entries with an insertion cursor. `Add` scores a move:
  - a capture gets the capture formula, even when it also promotes;
  - any other promotion gets the promotion formula;
  - every other move gets the history value.

  `Sort(n)` performs one step of selection sort in place. It is specified by
  the function `SelectStep`. Lemmas about that function prove that repeated
  `Sort(0), Sort(1), …` sort the buffer by non-increasing score and only
  rearrange it. `Remove` is swap-with-last deletion.
- **Hand-crafted evaluation** (`Hce`).
  - `Compute` is the signed difference of both colours' material plus
    king-bucketed piece-square sums. It is taken from the side to move's
    point of view and blended by the game phase.
  - The phase is recomputed from a board, or adjusted move by move with
    clamping to [0, 64].
  - It is saved into, and restored from, a byte of the board's per-ply
    snapshot. Round trips across disciplined make/unmake sequences are proved.
- **King buckets** (`KingBucketing`) and **generation-tagged moves**
  (`GenMoves`) are value types. They come with `Flip` algebra and the
  equality, equivalence and hashing laws.
- **Session controller** (`Engines.Engine`) is a class over the engine's flags,
  move counter, side to move and board. The calls it makes on its
  collaborators are recorded, in order, in an event trace. The collaborators
  are:
  - the worker pool;
  - the transposition table;
  - the time controller;
  - the UCI reporter.

  The class invariant is the one-search-generation discipline: no search is
  started before the previous one has been joined.

  The tablebase shortcut is modelled exactly:
  - the eligibility test;
  - promotion decoding;
  - the first matching, accepted generated move;
  - the principal variation of at most 12 plies, re-probed from each position
    it reaches;
  - the outcome-to-score mapping.

  `StartSearch` is proved to report and announce without starting a search
  when the shortcut succeeds. Otherwise it starts exactly one search.
  `MakeMoves` applies move tokens left to right with no rollback.

Whatever the controller relies on but does not own is a constant of function
type whose value is fixed but unknown, so every proof holds for any
implementation of it:
- the board's move generator, FEN loader, move parser and make-move;
- the Syzygy root probe;
- the piece values and phase weights;
- square normalization and bucketing;
- score normalization;
- the ordering bonuses;
- the mate score.

Modules: `Wrappers` (Option, Outcome), `Chess` (shared value types),
`KingBucketing`, `GenMoves`, `MoveLists`, `Hce`, `Engines`.

## Model

| member | source | states |
|---|---|---|
| Chess.Color.Flip | Pedantic/Chess/HCE/HceEval.cs:40 | the opposing colour is never the colour itself |
| Chess.Piece.Ordinal | Pedantic/Chess/Engine.cs:275-276 | the enumeration's numbering runs from -1 to 5, and only None has -1 |
| Chess.PieceOfOrdinal | Pedantic/Chess/Engine.cs:275 | an integer cast to a piece names a piece exactly when it lies in [-1, 5], and then the piece's ordinal is that integer |
| KingBucketing.KingBuckets.Flip | Pedantic/Chess/KingBuckets.cs:31-35 | the flipped pair has the two buckets exchanged |
| KingBucketing.FromSquares | Pedantic/Chess/KingBuckets.cs:18-22 | the friendly bucket is the bucket of the friendly king's square normalized for the friendly colour; the enemy bucket uses the other colour |
| KingBucketing.FromBoard | Pedantic/Chess/KingBuckets.cs:10-16 | the board constructor equals the explicit constructor for the side to move, its king square and the opponent's king square |
| KingBucketing.FlipInvolution | Pedantic/Chess/KingBuckets.cs:32-35 | flipping twice gives the original pair back |
| KingBucketing.FlipSwapsSides | Pedantic/Chess/KingBuckets.cs:18-35 | flipping the pair built for one colour gives the pair built for the other colour with the king squares exchanged |
| KingBucketing.FromBoardFlip | Pedantic/Chess/KingBuckets.cs:10-22 | the flipped board buckets are the buckets of the same board seen by the side not to move |
| GenMoves.GenMove.Equals | Pedantic/Chess/GenMove.cs:32-35 | field-wise equality holds exactly when the two values are the same value |
| GenMoves.GenMove.EqualsObject | Pedantic/Chess/GenMove.cs:37-44 | false for null and for any object that is not a boxed GenMove; otherwise true exactly when the boxed value equals this one |
| GenMoves.Eq | Pedantic/Chess/GenMove.cs:51-54 | the == operator, defined through Equals, holds exactly when the two values are identical |
| GenMoves.Neq | Pedantic/Chess/GenMove.cs:56-59 | the != operator holds exactly when the two values differ |
| GenMoves.EqualsIsEquivalence | Pedantic/Chess/GenMove.cs:32-35 | Equals is reflexive, symmetric and transitive |
| GenMoves.HashConsistent | Pedantic/Chess/GenMove.cs:46-49 | values that are Equal have equal hash codes |
| MoveLists.CaptureScore | Pedantic/Chess/MoveList.cs:172-175 | beyond the bonus, the promotion value and eight times the victim's ordinal, the attacker adds a term confined to a window of seven values, narrower than the victim's step of 8; so the victim decides first and the cheaper attacker second (CaptureVictimDominates, CaptureAttackerOrder) |
| MoveLists.PromoteScore | Pedantic/Chess/MoveList.cs:178-181 | a non-capturing promotion scores at least the promotion bonus exactly when the promoted piece's value is not negative (the premise of PromotionBeatsQuiet) |
| MoveLists.Priority | Pedantic/Chess/MoveList.cs:69-82 | the capture formula takes precedence (also for a capture that promotes), then the promotion formula, then the history value; with CaptureVictimDominates, CaptureAttackerOrder and PromotionBeatsQuiet this is the order Add ranks moves in |
| MoveLists.Scored | Pedantic/Chess/MoveList.cs:85-92 | adding a sequence of moves appends one entry per move, in order, each carrying its priority |
| MoveLists.MovesOf | Pedantic/Chess/MoveList.cs:158-164 | the enumerated moves are the entries' moves, one for one, in order |
| MoveLists.CaptureVictimDominates | Pedantic/Chess/MoveList.cs:172-175 | a capture of a higher-ordinal victim outranks a capture of a lower one, whichever pieces attack |
| MoveLists.CaptureAttackerOrder | Pedantic/Chess/MoveList.cs:172-175 | for the same victim and promotion, the lower-ordinal attacker ranks strictly higher |
| MoveLists.PromotionBeatsQuiet | Pedantic/Chess/MoveList.cs:69-82 | a non-capturing promotion outranks any quiet move whose history value is below the promotion bonus, when the promoted piece's value is not negative |
| MoveLists.SpecialisedAddersAgree | Pedantic/Chess/MoveList.cs:94-116 | AddQuiet, AddPromote and AddCapture score the move they build exactly as Add would score it |
| MoveLists.ScanMax | Pedantic/Chess/MoveList.cs:126-135 | the scan yields -1 on an empty range and otherwise an index inside the range |
| MoveLists.ScanMaxSpec | Pedantic/Chess/MoveList.cs:128-135 | the scanned index holds a maximum score of the range, and every earlier index in the range scores strictly less, so ties go to the lowest index |
| MoveLists.SelectUpTo | Pedantic/Chess/MoveList.cs:124-143 | any number of selection steps keeps the length and the multiset of entries |
| MoveLists.SwapMultiset | Pedantic/Chess/MoveList.cs:139 | exchanging two slots keeps the multiset of entries |
| MoveLists.SelectStepPermutes | Pedantic/Chess/MoveList.cs:137-140 | one selection step only rearranges the entries |
| MoveLists.SelectStepSpec | Pedantic/Chess/MoveList.cs:124-143 | after one step, slot n holds a maximum of the suffix (the scan's pick), the prefix is untouched, each later slot holds its old entry or the old entry of slot n, and the multiset is kept |
| MoveLists.SelectStepExtends | Pedantic/Chess/MoveList.cs:128-142 | a step on a sorted, dominating prefix of length n yields one of length n + 1 |
| MoveLists.SelectionPrefix | Pedantic/Chess/MoveList.cs:128-142 | after Sort(0) … Sort(k - 1), the first k scores are non-increasing and each of them is at least every later score |
| MoveLists.SelectionSorts | Pedantic/Chess/MoveList.cs:124-143 | Sort(0) … Sort(count - 1) leave the whole buffer in non-increasing score order, as a permutation of the original entries |
| MoveLists.IndexOf | Pedantic/Chess/MoveList.cs:147-150 | the first index whose move equals the sought move, or the length when there is none |
| MoveLists.RemoveAtMultiset | Pedantic/Chess/MoveList.cs:145-156 | swap-with-last removal takes out exactly the one entry and keeps every other one |
| MoveLists.MoveList.constructor | Pedantic/Chess/MoveList.cs:41-44 | a new buffer is empty and keeps the given history |
| MoveLists.MoveList.At | Pedantic/Chess/MoveList.cs:48-55 | the indexer returns the move of the entry at that position, for indices below the count |
| MoveLists.MoveList.GetScore | Pedantic/Chess/MoveList.cs:57-63 | the score of the entry at that position, for indices below the count |
| MoveLists.MoveList.Add | Pedantic/Chess/MoveList.cs:65-83 | below capacity, exactly one entry is appended at the old count, scored by priority; earlier entries are unchanged |
| MoveLists.MoveList.AddAll | Pedantic/Chess/MoveList.cs:85-92 | the moves are appended in order, each scored as Add scores it |
| MoveLists.MoveList.AddQuiet | Pedantic/Chess/MoveList.cs:94-100 | appends the quiet move built from the arguments, scored by its history value |
| MoveLists.MoveList.AddPromote | Pedantic/Chess/MoveList.cs:102-108 | appends the pawn promotion built from the arguments, scored by the promotion formula |
| MoveLists.MoveList.AddCapture | Pedantic/Chess/MoveList.cs:110-116 | appends the capture built from the arguments, scored by the capture formula |
| MoveLists.MoveList.Clear | Pedantic/Chess/MoveList.cs:118-122 | the buffer becomes empty |
| MoveLists.MoveList.Sort | Pedantic/Chess/MoveList.cs:124-143 | for n below the count, the entries become SelectStep of the old ones (see SelectStepSpec and SelectionSorts) and the count is unchanged; at or beyond the count the array is untouched; the move now in slot n is returned |
| MoveLists.MoveList.Remove | Pedantic/Chess/MoveList.cs:145-156 | true exactly when the move is present; then the first occurrence is replaced by the last entry and the count drops by one; otherwise nothing changes |
| MoveLists.MoveList.Moves | Pedantic/Chess/MoveList.cs:158-164 | enumeration yields the moves of the first count entries in insertion order |
| Hce.ToShort | Pedantic/Chess/HCE/HceEval.cs:67 | assigning to a short always lands in the 16-bit range and keeps every value already in it |
| Hce.ToByte | Pedantic/Chess/HCE/HceEval.cs:88 | the byte cast keeps every value in [0, 255] |
| Hce.Clamp | Pedantic/Chess/HCE/HceEval.cs:76 | the clamped value lies in the bounds and equals the input whenever the input does |
| Hce.ToShortAdd | Pedantic/Chess/HCE/HceEval.cs:64-68 | wrapping the running phase after each addition gives the same short as wrapping the full sum once |
| Hce.Sign | Pedantic/Chess/HCE/HceEval.cs:12-13 | the signs table: White's contribution is kept as it is, Black's becomes its additive inverse |
| Hce.EvalSquaresAppend | Pedantic/Chess/HCE/HceEval.cs:46-60 | the per-square material and piece-square sum is additive over the squares visited, which is what lets EvalMaterialAndPst accumulate square by square |
| Hce.BalanceIsDifference | Pedantic/Chess/HCE/HceEval.cs:37-42 | the signed sum over both colours is White's score minus Black's |
| Hce.Relative | Pedantic/Chess/HCE/HceEval.cs:35-44 | the score before blending is White's sum minus Black's when White is to move, and its negation when Black is |
| Hce.SideIgnoresTurn | Pedantic/Chess/HCE/HceEval.cs:38-41 | a colour's contribution does not depend on whose turn it is |
| Hce.SquaresIgnoreTurn | Pedantic/Chess/HCE/HceEval.cs:51-57 | the per-square sum does not depend on whose turn it is |
| Hce.RelativeAntisymmetric | Pedantic/Chess/HCE/HceEval.cs:35-44 | the same position with the other side to move scores the exact negation |
| Hce.PhaseAfter | Pedantic/Chess/HCE/HceEval.cs:71-84 | after a capture or a promotion the phase lies in [0, 64]; any other move leaves it unchanged |
| Hce.PhaseAfterArithmetic | Pedantic/Chess/HCE/HceEval.cs:73-83 | from any phase a short holds (also an unclamped one), when no 16-bit wrap-around happens: a promotion adds the promoted piece's weight less a pawn's, a capture subtracts the captured piece's weight, each followed by a clamp to [0, 64], and a capture-promotion does both, promotion first |
| Hce.PhaseStaysClamped | Pedantic/Chess/HCE/HceEval.cs:71-84 | from a phase in [0, 64], or once any capture or promotion is among the moves, the phase after the whole sequence of moves lies in [0, 64] |
| Hce.RunPliesAppend | Pedantic/Chess/HCE/HceEval.cs:86-94 | running two sequences of makes and unmakes is running the second from where the first ended |
| Hce.StackBelowKept | Pedantic/Chess/HCE/HceEval.cs:86-94 | a sequence that never unmakes more than it made leaves the snapshots below its start untouched, with Depth more on top |
| Hce.MatchedUnmakeRestores | Pedantic/Chess/HCE/HceEval.cs:86-94 | the unmake matching a make restores the byte saved at that make, whatever balanced sequence came between, and the snapshot stack is as before the make |
| Hce.MatchedUnmakeRoundTrip | Pedantic/Chess/HCE/HceEval.cs:86-94 | for every phase a byte can hold (every clamped phase in particular), make … unmake restores the phase exactly |
| Hce.HceEval.constructor | Pedantic/Chess/HCE/HceEval.cs:10-14 | a new evaluator starts with phase 0 |
| Hce.HceEval.Compute | Pedantic/Chess/HCE/HceEval.cs:35-44 | White's sum minus Black's (each scored with its own king buckets), negated when Black is to move, blended by the current phase; changes nothing (see RelativeAntisymmetric for the side-to-move symmetry) |
| Hce.HceEval.EvalMaterialAndPst | Pedantic/Chess/HCE/HceEval.cs:46-60 | the accumulated pair is the sum, over the squares of the colour's pieces, of each piece's material value and its friendly and enemy piece-square values under the given buckets |
| Hce.HceEval.UpdateBoard | Pedantic/Chess/HCE/HceEval.cs:62-69 | the phase becomes the sum of the phase weights of all occupied squares as a short, with no clamping |
| Hce.HceEval.UpdateMove | Pedantic/Chess/HCE/HceEval.cs:71-84 | the new phase is PhaseAfter of the old one: in [0, 64] after a capture or promotion, unchanged otherwise |
| Hce.HceEval.SaveState | Pedantic/Chess/HCE/HceEval.cs:86-89 | the snapshot's phase byte is the phase cast to a byte, equal to it when it lies in [0, 255]; the rest of the snapshot is untouched |
| Hce.HceEval.RestoreState | Pedantic/Chess/HCE/HceEval.cs:91-94 | the phase becomes the snapshot's phase byte |
| Engines.DecodePromote | Pedantic/Chess/Engine.cs:274-276 | codes 0-4 stand for no promotion, queen, rook, bishop and knight; no code ever stands for a king |
| Engines.FirstAcceptedSpec | Pedantic/Chess/Engine.cs:278-289 | the scan stops at the first generated move that matches the probe and that the board accepts, or at the end when none does |
| Engines.RootHitSpec | Pedantic/Chess/Engine.cs:257-292 | a root hit exists exactly when probing is eligible and some generated move matches and is accepted; it is the first such move and carries the probe's outcome |
| Engines.TbLine | Pedantic/Chess/Engine.cs:299-308 | the line never exceeds its room, and when there is room it starts with the root move |
| Engines.TbLineFollowsProbes | Pedantic/Chess/Engine.cs:300-308 | each move after the first is the hit of the probe in the position reached by playing the moves before it |
| Engines.TbLineStopsAtMiss | Pedantic/Chess/Engine.cs:300-307 | a line shorter than its room ends because the probe after its last move failed |
| Engines.ReplayAppend | Pedantic/Chess/Engine.cs:303 | playing one more move on the clone continues from where the previous moves left it |
| Engines.TbLineNext | Pedantic/Chess/Engine.cs:300-308 | a failed re-probe ends the line at that ply; a successful one, with room left, is the next move of the line |
| Engines.WdlScore | Pedantic/Chess/Engine.cs:309-317 | the score is +CHECKMATE_SCORE exactly for wins and cursed wins, -CHECKMATE_SCORE exactly for losses and blessed losses, and 0 exactly for a draw |
| Engines.ProbeRootTb | Pedantic/Chess/Engine.cs:257-292 | the answer is the root hit: nothing when probing is not eligible, otherwise the first generated move whose origin, destination and decoded promotion match the probe and that the board accepts |
| Engines.ProbePvTb | Pedantic/Chess/Engine.cs:294-321 | success exactly when the root probe hits; then the buffer holds the whole re-probed line (at least one move, pv[0] the root move, at most the buffer's length) and the score is the outcome's score; on failure the length and score are 0; the buffer beyond pvLen (all of it on a miss) is left as it was |
| Engines.ApplyMovesAppend | Pedantic/Chess/Engine.cs:196-215 | two batches of tokens in a row act as one batch, and a failure in the first ends the whole |
| Engines.FailedBatchKeepsPrefix | Pedantic/Chess/Engine.cs:198-211 | a failed batch leaves exactly the moves before the failing token applied, and that token alone fails on the resulting board |
| Engines.TwoMovesInOrder | Pedantic.UnitTests/UciCommandTests.cs:39-47 | two tokens that parse and that the board accepts leave the board after both moves, applied in order |
| Engines.DisciplinedUpToMeans | Pedantic/Chess/Engine.cs:42-46 | the call-by-call check holds exactly when every search among the first n calls was started from a joined pool |
| Engines.DisciplinedIsOneGeneration | Pedantic/Chess/Engine.cs:77-91 | the class invariant is exactly the one-search-generation discipline over the whole trace |
| Engines.PrefixUnaffected | Pedantic/Chess/Engine.cs:42-46 | later calls do not change whether the pool was joined, or the discipline held, at an earlier point |
| Engines.OneGenerationStep | Pedantic/Chess/Engine.cs:42-46 | one more call keeps the discipline exactly when a search starts only from a joined pool; a wait joins the pool and a search un-joins it |
| Engines.SearchCountAppend | Pedantic/Chess/Engine.cs:363 | the number of searches started is additive over consecutive runs of calls |
| Engines.StartSearchCount | Pedantic/Chess/Engine.cs:347-365 | whatever calls came before, StartSearch's calls add exactly one started search when the tablebase has no answer and none when it has |
| Engines.StartCallsSpec | Pedantic/Chess/Engine.cs:347-365 | on a tablebase hit no search is started and the last call announces the root move; otherwise exactly one search is started, as the last call; either way the calls keep the one-generation discipline |
| Engines.Engine.constructor | Pedantic/Chess/Engine.cs:9-15 | the static initial state: not running, not pondering, not infinite, no moves out of book, White, no weights loaded, empty trace |
| Engines.Engine.Stop | Pedantic/Chess/Engine.cs:42-46 | cancels and then joins the pool, leaving it joined; no flag changes |
| Engines.Engine.Start | Pedantic/Chess/Engine.cs:36-40 | stops first, then marks the engine running |
| Engines.Engine.Quit | Pedantic/Chess/Engine.cs:48-52 | stops first, then marks the engine not running |
| Engines.Engine.Wait | Pedantic/Chess/Engine.cs:54-57 | joins the pool and nothing else |
| Engines.Engine.PonderHit | Pedantic/Chess/Engine.cs:59-75 | no effect when no search runs; a pondering search becomes a timed one in place, with no stop or restart; otherwise exactly a Stop |
| Engines.Engine.ClearHashTable | Pedantic/Chess/Engine.cs:93-98 | clears the transposition table, then the pool's evaluation caches, without affecting whether the pool is joined |
| Engines.Engine.ResizeHashTable | Pedantic/Chess/Engine.cs:107-111 | resizes the transposition table, then the pool's evaluation caches |
| Engines.Engine.SetupNewGame | Pedantic/Chess/Engine.cs:100-105 | stops, clears the tables and resets the out-of-book move counter to 0 |
| Engines.Engine.StartSearch | Pedantic/Chess/Engine.cs:347-365 | makes exactly the calls StartCalls lists (see StartCallsSpec): on a tablebase hit it reports the line and the move and leaves the counter and the running flag alone; otherwise it counts one more move out of book, searches once and marks the engine running |
| Engines.Engine.Go | Pedantic/Chess/Engine.cs:77-83 | stops, records the ponder flag, arms the clock as infinite when pondering or infinite, then does exactly what StartSearch does |
| Engines.Engine.GoTimed | Pedantic/Chess/Engine.cs:85-91 | as Go, arming the clock with both remaining times, the increment, the moves to go and the out-of-book count before this search |
| Engines.Engine.SetupPosition | Pedantic/Chess/Engine.cs:138-161 | stops first; reports true exactly when the description loads, in which case the board is the loaded one and the colour is its side to move; otherwise the board and the colour are kept |
| Engines.Engine.MakeMoves | Pedantic/Chess/Engine.cs:196-215 | the board ends where applying the tokens left to right ends (no rollback), the outcome names the first bad token, and the colour is updated only when every token applied |
| Engines.Engine.GetWeights | Pedantic/Chess/Engine.cs:17-28 | loads on each access until a load succeeds, then keeps that table and returns it; while nothing is loaded the built-in defaults are returned |

## Left out

- Board internals (bitboards, move generation, FEN parsing, make/unmake), the
  Syzygy library, piece values, phase weights, square normalization,
  bucketing, score normalization and the ordering constants. These are
  external to the core. They appear as constants of function type with
  unknown values.
- Concurrency: the worker threads, the real search and blocking joins are not
  modelled. A pool call is recorded as an event, and `Stop` is taken to
  return only once every worker has stopped.
- Parts of `Engine` are not modelled:
  - `Bench`, `RunBenchFens` and `Perft` (timing, floating point);
  - the `SearchThreads` property;
  - `Initialize` and the `Debug` flag;
  - the forced garbage collection in `ClearHashTable`;
  - logging text.
- `LoadWeights` reads files and the process path, so it is not modelled.
  `Engines.Engine.GetWeights` takes its result as the parameter `loaded`.
  The static `HceEval.Weights` property is the parameter `w` of the
  evaluation functions.
- The time controller's budget arithmetic is left out. `Go` records the
  arguments it passes.
- Of the UCI info report, only the score and the principal variation are
  recorded. The depth, node count, hash usage and PV length are not.
- The `ReadOnlySpan<char>` overloads of `SetupPosition` and `MakeMoves` are
  not modelled separately. Their bodies match the `string` and
  `IEnumerable<string>` ones once the span is split into tokens, so both
  overloads are modelled as one method over tokens. Splitting on the command
  separators is not modelled.
- `Engines.Engine.MakeMoves` returns an `Outcome` instead of throwing:
  `InvalidMoveFormat` stands for `ArgumentException` and `IllegalMove` for
  `InvalidOperationException`. The moves applied before the failure stay
  applied, as in the source.
- `Engines.Engine.SetupPosition`: a fault while loading counts as a failed
  load. The model assumes the board keeps its previous position when a load
  fails; what a partially loaded board holds is not modelled.
- `Engines.ProbeRootTb`: make followed by unmake is modelled as a pure
  acceptance test (`PlayMove(b, m).Some?`). This assumes unmake restores the
  board. The `move` and `gameResult` out-parameters are not modelled on a
  false return, because no caller reads them then.
- `Engines.AfterMove` assumes a rejected move leaves the board unchanged. The
  principal-variation loop ignores `MakeMove`'s result, but every move it
  plays has been accepted by the probe, so this case never arises.
- `Engines.WdlScore`: the outcome is assumed to be one of the five named
  outcomes, so the switch's default arm (score 0) is not modelled. The
  outcome enumeration and the Syzygy wrapper that fills it are not part of
  this model, and an integer outside the five named values is not
  represented.
- `Chess.Board`: the king squares `whiteKing` and `blackKing` are fields of
  their own. They are assumed to agree with the king found in `cells`, as
  the board's KingIndex table does for the king bitboard that
  `Pedantic/Chess/KingBuckets.cs:12-13` reads. Nothing in the model ties the
  two together.
- `Chess.Move`: `IsCapture` and `IsPromote` are taken to mean that the
  captured piece, respectively the promotion piece, is not None. The move
  encoding is not part of this model.
- `MoveLists.MoveList.Sort` requires `n < 218`. The source indexes its inline
  array without a check, so a larger `n` faults there.
- `MoveLists.MoveList.Sort` requires `0 <= n`. A negative `n` makes the
  source's scan read before the start of the array, which faults.
- The parameterless `MoveList()` constructor is not modelled separately. It
  is the history constructor applied to a history that scores every move 0,
  which is how `Engines.ProbeRootTb` creates its list (`_ => 0`).
- `MoveLists.MoveList.Sort` starts its scan from an index of -1 instead of
  `int.MinValue`. The result is the same for every 32-bit score: the first
  highest-scoring entry, and no exchange when it is already in place.
- `MoveLists.Priority`: scores and history values are unbounded integers.
  32-bit overflow of the capture formula and the 16-bit range of history
  values are not modelled.
- `Hce.HceEval.Compute` returns the external normalization's result unchanged.
  The `short` result width is the normalization's concern.
- The `HceEval(Weights)` constructor ignores its argument in the source, so it
  behaves as the parameterless constructor, which is the one modelled.
- `Hce.PhaseAfterArithmetic` states the arithmetic only where no 16-bit
  wrap-around occurs. For a promotion, the weight difference and the sum must
  lie in the short range. For a capture, the phase before it less the
  captured weight must lie in that range. With wrap-around
  the phase is still clamped, as `Hce.PhaseAfter` states.
- The e2e4/e7e5 example needs the real board and move parser, so it is not
  modelled concretely. `Engines.TwoMovesInOrder` states it for any two
  accepted tokens.
- Piece ordinals are taken as None = -1, Pawn = 0 … King = 5. The promotion
  decode `5 - promotes` with King meaning "none" relies on this numbering.
- `GetHashCode` is the external hash combiner applied to the two fields.
  Only its consistency with `Equals` is stated.
- The GenMove and KingBuckets value constructors are the datatype
  constructors, so they store their fields by definition.
- Two behaviours of the code are worth noting:
  1. `Update(Board)` does not clamp the phase. So the phase stays in [0, 64]
     only from a clamped start, or after a capture or promotion
     (`Hce.PhaseStaysClamped`).
  2. Cursed wins and blessed losses score ±CHECKMATE_SCORE
     (`Engines.WdlScore`).

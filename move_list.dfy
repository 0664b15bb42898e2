/** The move-ordering container: a fixed-capacity buffer of (move, priority)
    pairs with an insertion cursor, which yields moves best-first by one step
    of selection sort per request. */
module MoveLists {
  import opened Chess

  const CAPACITY := 218

  /** Ordering constants and the piece value table of the source's Constants
      and Piece extensions (values not part of this model). */
  const CAPTURE_BONUS: int
  const PROMOTE_BONUS: int
  const MAX_PIECES: int
  /** Piece.Value(). */
  const PieceValue: Piece -> int

  datatype ScoredMove = ScoredMove(move: Move, score: int)

  /** Priority of a capture: bonus, promotion value, eight times the victim's
      ordinal and the attacker's distance from MAX_PIECES. Beyond the victim
      term, the attacker moves the score within a window of seven values, less
      than the victim term's step of 8. */
  function CaptureScore(captured: Piece, attacker: Piece, promote: Piece): (r: int)
    ensures MAX_PIECES - 5 <= r - CAPTURE_BONUS - PieceValue(promote) - 8 * captured.Ordinal() <= MAX_PIECES + 1
  {
    CAPTURE_BONUS + PieceValue(promote) + captured.Ordinal() * 8 + (MAX_PIECES - attacker.Ordinal())
  }

  /** Priority of a non-capturing promotion. */
  function PromoteScore(promote: Piece): (r: int)
    ensures r >= PROMOTE_BONUS <==> PieceValue(promote) >= 0
  {
    PROMOTE_BONUS + PieceValue(promote)
  }

  /** The priority Add gives a move: the capture formula for a capture (also
      when it promotes), the promotion formula for any other promotion, the
      history value for everything else. */
  function Priority(history: Move -> int, m: Move): (r: int)
    ensures m.IsCapture() ==> r == CaptureScore(m.capture, m.piece, m.promote)
    ensures !m.IsCapture() && m.IsPromote() ==> r == PromoteScore(m.promote)
    ensures !m.IsCapture() && !m.IsPromote() ==> r == history(m)
  {
    if m.IsCapture() then CaptureScore(m.capture, m.piece, m.promote)
    else if m.IsPromote() then PromoteScore(m.promote)
    else history(m)
  }

  /** The entries Add appends for a sequence of moves. */
  function Scored(history: Move -> int, moves: seq<Move>): (r: seq<ScoredMove>)
    ensures |r| == |moves|
    ensures forall i :: 0 <= i < |moves| ==> r[i] == ScoredMove(moves[i], Priority(history, moves[i]))
  {
    seq(|moves|, i requires 0 <= i < |moves| => ScoredMove(moves[i], Priority(history, moves[i])))
  }

  /** The moves of a run of entries, in order. */
  function MovesOf(s: seq<ScoredMove>): (r: seq<Move>)
    ensures |r| == |s|
    ensures forall i :: 0 <= i < |s| ==> r[i] == s[i].move
  {
    seq(|s|, i requires 0 <= i < |s| => s[i].move)
  }

  // ---------------------------------------------------------------------
  // The ordering of captures

  /** A more valuable victim always outranks a less valuable one, whoever the
      attackers are (the victim term moves in steps of 8, the attacker term
      spans only 6). */
  lemma CaptureVictimDominates(v1: Piece, a1: Piece, v2: Piece, a2: Piece, p: Piece)
    requires v1.Ordinal() < v2.Ordinal()
    ensures CaptureScore(v1, a1, p) < CaptureScore(v2, a2, p)
  {
  }

  /** For the same victim, the cheaper attacker ranks higher. */
  lemma CaptureAttackerOrder(v: Piece, a1: Piece, a2: Piece, p: Piece)
    requires a1.Ordinal() < a2.Ordinal()
    ensures CaptureScore(v, a1, p) > CaptureScore(v, a2, p)
  {
  }

  /** A non-capturing promotion outranks every quiet move whose history value
      lies below the promotion bonus, when the promoted piece's value is not
      negative. */
  lemma PromotionBeatsQuiet(history: Move -> int, promo: Move, quiet: Move)
    requires promo.IsPromote() && !promo.IsCapture()
    requires !quiet.IsCapture() && !quiet.IsPromote()
    requires history(quiet) < PROMOTE_BONUS && PieceValue(promo.promote) >= 0
    ensures Priority(history, promo) > Priority(history, quiet)
  {
  }

  /** The specialised adders score exactly as Add would score the move they
      build. */
  lemma SpecialisedAddersAgree(history: Move -> int, stm: Color, piece: Piece, from: Square,
                               to: Square, kind: MoveType, capture: Piece, promote: Piece)
    ensures var q := Move(stm, piece, from, to, kind, None, None);
            Priority(history, q) == history(q)
    ensures promote != None ==>
            Priority(history, Move(stm, Pawn, from, to, PromoteKind, None, promote)) == PromoteScore(promote)
    ensures capture != None ==>
            Priority(history, Move(stm, piece, from, to, kind, capture, promote))
            == CaptureScore(capture, piece, promote)
  {
  }

  // ---------------------------------------------------------------------
  // Selection of the best remaining entry

  /** The index of the first highest-scoring entry of s[lo..hi), located by
      the same left-to-right scan with a strict comparison that Sort runs; -1
      when the range is empty. */
  function ScanMax(s: seq<ScoredMove>, lo: int, hi: int): (k: int)
    requires 0 <= lo <= hi <= |s|
    ensures hi == lo ==> k == -1
    ensures lo < hi ==> lo <= k < hi
    decreases hi - lo
  {
    if hi == lo then -1
    else
      var k := ScanMax(s, lo, hi - 1);
      if k < 0 || s[hi - 1].score > s[k].score then hi - 1 else k
  }

  /** The scan finds the first entry of s[lo..hi) with the highest score:
      nothing in the range scores more, and everything before it scores
      strictly less. */
  lemma {:induction false} ScanMaxSpec(s: seq<ScoredMove>, lo: int, hi: int)
    requires 0 <= lo < hi <= |s|
    ensures var k := ScanMax(s, lo, hi);
            && (forall j :: lo <= j < hi ==> s[j].score <= s[k].score)
            && (forall j :: lo <= j < k ==> s[j].score < s[k].score)
    decreases hi - lo
  {
    if lo < hi - 1 {
      ScanMaxSpec(s, lo, hi - 1);
    }
  }

  function Swap(s: seq<ScoredMove>, i: int, j: int): (r: seq<ScoredMove>)
    requires 0 <= i < |s| && 0 <= j < |s|
    ensures |r| == |s|
  {
    s[i := s[j]][j := s[i]]
  }

  /** What Sort(n) does to the entries: the first best entry of s[n..] is
      exchanged into slot n. */
  function SelectStep(s: seq<ScoredMove>, n: nat): (r: seq<ScoredMove>)
    ensures |r| == |s|
  {
    if n < |s| then Swap(s, n, ScanMax(s, n, |s|)) else s
  }

  /** The entries after Sort(0), Sort(1), ..., Sort(k - 1). */
  function SelectUpTo(s: seq<ScoredMove>, k: nat): (r: seq<ScoredMove>)
    ensures |r| == |s|
    ensures multiset(r) == multiset(s)
  {
    if k == 0 then s
    else
      var p := SelectUpTo(s, k - 1);
      SelectStepPermutes(p, k - 1);
      SelectStep(p, k - 1)
  }

  lemma SwapMultiset(s: seq<ScoredMove>, i: int, j: int)
    requires 0 <= i < |s| && 0 <= j < |s|
    ensures multiset(Swap(s, i, j)) == multiset(s)
  {
    if i != j {
      var t := s[i := s[j]];
      assert multiset(t) == multiset(s) - multiset{s[i]} + multiset{s[j]};
      assert multiset(t[j := s[i]]) == multiset(t) - multiset{t[j]} + multiset{s[i]};
    }
  }

  /** One step of Sort(n): the best remaining entry arrives at n, the entries
      before n stay where they are, every entry after n is one that was at or
      after n, and nothing is gained or lost. */
  lemma SelectStepSpec(s: seq<ScoredMove>, n: nat)
    requires n < |s|
    ensures var r := SelectStep(s, n);
            && multiset(r) == multiset(s)
            && r[..n] == s[..n]
            && r[n] == s[ScanMax(s, n, |s|)]
            && (forall j :: n < j < |s| ==> r[j] == s[j] || r[j] == s[n])
            && (forall j :: n <= j < |s| ==> r[j].score <= r[n].score)
  {
    var k := ScanMax(s, n, |s|);
    ScanMaxSpec(s, n, |s|);
    SwapMultiset(s, n, k);
    var r := SelectStep(s, n);
    assert r == Swap(s, n, k);
    forall j | n <= j < |s|
      ensures r[j].score <= r[n].score
    {
      if j == k {
        assert r[j] == s[n];
      } else if j != n {
        assert r[j] == s[j];
      }
    }
  }

  /** The first k scores are non-increasing. */
  ghost predicate SortedPrefix(r: seq<ScoredMove>, k: nat)
    requires k <= |r|
  {
    forall i, j :: 0 <= i < j < k ==> r[i].score >= r[j].score
  }

  /** A selection step only rearranges the entries. */
  lemma SelectStepPermutes(s: seq<ScoredMove>, n: nat)
    ensures multiset(SelectStep(s, n)) == multiset(s)
  {
    if n < |s| {
      SwapMultiset(s, n, ScanMax(s, n, |s|));
    }
  }

  /** Each of the first k scores is at least every later score. */
  ghost predicate PrefixDominates(r: seq<ScoredMove>, k: nat)
    requires k <= |r|
  {
    forall i, j :: 0 <= i < k <= j < |r| ==> r[i].score >= r[j].score
  }

  /** One more selection step extends a sorted, dominating prefix by one. */
  lemma SelectStepExtends(p: seq<ScoredMove>, n: nat)
    requires n < |p| && SortedPrefix(p, n) && PrefixDominates(p, n)
    ensures SortedPrefix(SelectStep(p, n), n + 1)
    ensures PrefixDominates(SelectStep(p, n), n + 1)
  {
    var r := SelectStep(p, n);
    SelectStepSpec(p, n);
    var m := ScanMax(p, n, |p|);
    forall i | 0 <= i < n
      ensures r[i] == p[i]
    {
      assert r[i] == r[..n][i];
    }
    forall i, j | 0 <= i < j < n + 1
      ensures r[i].score >= r[j].score
    {
      if j == n {
        assert r[n] == p[m];
      }
    }
    forall i, j | 0 <= i < n + 1 <= j < |r|
      ensures r[i].score >= r[j].score
    {
      if i < n {
        assert r[j] == p[j] || r[j] == p[n];
      }
    }
  }

  /** Repeated Sort(0), ..., Sort(k - 1) is selection sort stopped after k
      rounds: the first k scores are non-increasing and each of them is at
      least every score after them. */
  lemma {:induction false} SelectionPrefix(s: seq<ScoredMove>, k: nat)
    requires k <= |s|
    ensures SortedPrefix(SelectUpTo(s, k), k)
    ensures PrefixDominates(SelectUpTo(s, k), k)
  {
    if k > 0 {
      SelectionPrefix(s, k - 1);
      SelectStepExtends(SelectUpTo(s, k - 1), k - 1);
    }
  }

  /** Sort(0), ..., Sort(count - 1) sort the whole buffer: the scores come out
      in non-increasing order and the entries are a permutation of the
      original ones. */
  lemma SelectionSorts(s: seq<ScoredMove>)
    ensures multiset(SelectUpTo(s, |s|)) == multiset(s)
    ensures forall i, j :: 0 <= i < j < |s| ==> SelectUpTo(s, |s|)[i].score >= SelectUpTo(s, |s|)[j].score
  {
    SelectionPrefix(s, |s|);
  }

  // ---------------------------------------------------------------------
  // Removal

  /** The index of the first entry carrying move m, or |s| when there is none. */
  function IndexOf(s: seq<ScoredMove>, m: Move): (k: nat)
    ensures k <= |s|
    ensures k < |s| ==> s[k].move == m
    ensures forall j :: 0 <= j < k ==> s[j].move != m
  {
    if s == [] then 0
    else if s[0].move == m then 0
    else 1 + IndexOf(s[1..], m)
  }

  /** Swap-with-last deletion of entry k. */
  function RemoveAt(s: seq<ScoredMove>, k: nat): (r: seq<ScoredMove>)
    requires k < |s|
    ensures |r| == |s| - 1
  {
    s[k := s[|s| - 1]][..|s| - 1]
  }

  /** Removal takes out exactly the one entry. */
  lemma RemoveAtMultiset(s: seq<ScoredMove>, k: nat)
    requires k < |s|
    ensures multiset(RemoveAt(s, k)) == multiset(s) - multiset{s[k]}
  {
    var n := |s| - 1;
    var t := s[k := s[n]];
    assert s == s[..n] + [s[n]];
    assert t == t[..n] + [t[n]];
    if k == n {
      assert t[..n] == s[..n];
    } else {
      assert multiset(t) == multiset(s) - multiset{s[k]} + multiset{s[n]};
      assert t[n] == s[n];
    }
  }

  // ---------------------------------------------------------------------
  // The buffer

  class MoveList {
    /** The history heuristic that scores quiet moves. */
    const history: Move -> int
    /** The fixed inline array of CAPACITY entries. */
    const buf: array<ScoredMove>
    /** The insertion cursor, which is also the number of entries. */
    var count: nat

    ghost predicate Valid()
      reads this
    {
      buf.Length == CAPACITY && count <= CAPACITY
    }

    /** The entries in insertion order. */
    ghost function Entries(): seq<ScoredMove>
      reads this, buf
      requires Valid()
    {
      buf[..count]
    }

    constructor (history: Move -> int)
      ensures Valid() && fresh(buf)
      ensures Entries() == [] && this.history == history
    {
      this.history := history;
      buf := new ScoredMove[CAPACITY](_ => ScoredMove(NullMove, 0));
      count := 0;
    }

    /** The indexer. */
    method At(index: int) returns (m: Move)
      requires Valid() && 0 <= index < count
      ensures m == Entries()[index].move
    {
      m := buf[index].move;
    }

    method GetScore(index: int) returns (score: int)
      requires Valid() && 0 <= index < count
      ensures score == Entries()[index].score
    {
      score := buf[index].score;
    }

    method Add(move: Move)
      requires Valid() && count < CAPACITY
      modifies this, buf
      ensures Valid()
      ensures Entries() == old(Entries()) + [ScoredMove(move, Priority(history, move))]
    {
      var score;
      if move.IsCapture() {
        score := CaptureScore(move.capture, move.piece, move.promote);
      } else if move.IsPromote() {
        score := PromoteScore(move.promote);
      } else {
        score := history(move);
      }
      buf[count] := ScoredMove(move, score);
      count := count + 1;
    }

    /** Add(IEnumerable<Move>): adds each move in turn. */
    method AddAll(moves: seq<Move>)
      requires Valid() && count + |moves| <= CAPACITY
      modifies this, buf
      ensures Valid()
      ensures Entries() == old(Entries()) + Scored(history, moves)
    {
      for i := 0 to |moves|
        invariant Valid()
        invariant count == old(count) + i
        invariant Entries() == old(Entries()) + Scored(history, moves[..i])
      {
        Add(moves[i]);
        assert Scored(history, moves[..i + 1]) == Scored(history, moves[..i]) + [ScoredMove(moves[i], Priority(history, moves[i]))];
      }
      assert moves[..|moves|] == moves;
    }

    method AddQuiet(stm: Color, piece: Piece, from: Square, to: Square, kind: MoveType)
      requires Valid() && count < CAPACITY
      modifies this, buf
      ensures Valid()
      ensures var m := Move(stm, piece, from, to, kind, None, None);
              Entries() == old(Entries()) + [ScoredMove(m, history(m))]
    {
      var move := Move(stm, piece, from, to, kind, None, None);
      buf[count] := ScoredMove(move, history(move));
      count := count + 1;
    }

    method AddPromote(stm: Color, from: Square, to: Square, promote: Piece)
      requires Valid() && count < CAPACITY
      modifies this, buf
      ensures Valid()
      ensures Entries() == old(Entries())
                           + [ScoredMove(Move(stm, Pawn, from, to, PromoteKind, None, promote), PromoteScore(promote))]
    {
      var move := Move(stm, Pawn, from, to, PromoteKind, None, promote);
      buf[count] := ScoredMove(move, PromoteScore(promote));
      count := count + 1;
    }

    method AddCapture(stm: Color, piece: Piece, from: Square, to: Square, kind: MoveType,
                      capture: Piece, promote: Piece)
      requires Valid() && count < CAPACITY
      modifies this, buf
      ensures Valid()
      ensures Entries() == old(Entries())
                           + [ScoredMove(Move(stm, piece, from, to, kind, capture, promote),
                                         CaptureScore(capture, piece, promote))]
    {
      var move := Move(stm, piece, from, to, kind, capture, promote);
      buf[count] := ScoredMove(move, CaptureScore(capture, piece, promote));
      count := count + 1;
    }

    method Clear()
      requires Valid()
      modifies this
      ensures Valid() && Entries() == []
    {
      count := 0;
    }

    /** One step of selection sort: the first best entry of [n, count) is
        exchanged into slot n and its move returned. Slots at or beyond count
        hold stale entries; Sort on such an n changes nothing and returns the
        stale move. */
    method Sort(n: int) returns (m: Move)
      requires Valid() && 0 <= n < CAPACITY
      modifies buf
      ensures Valid()
      ensures n < count ==> Entries() == SelectStep(old(Entries()), n)
      ensures count <= n ==> buf[..] == old(buf[..])
      ensures m == buf[n].move
    {
      // The source starts from int.MinValue with no index; an index of -1
      // stands for "nothing seen yet" so that every 32-bit score is admitted.
      var largest := -1;
      var largestScore := 0;
      ghost var entries := buf[..count];
      var i := n;
      while i < count
        invariant n <= count ==> n <= i <= count && largest == ScanMax(entries, n, i)
        invariant largest >= 0 ==> largest < count && largestScore == entries[largest].score
        invariant count <= n ==> largest == -1
      {
        if largest < 0 || buf[i].score > largestScore {
          largest := i;
          largestScore := buf[i].score;
        }
        i := i + 1;
      }
      if largest > n {
        buf[n], buf[largest] := buf[largest], buf[n];
        assert buf[..count] == Swap(entries, n, largest);
      } else if n < count {
        assert entries == Swap(entries, n, largest);
      }
      m := buf[n].move;
    }

    /** Swap-with-last removal of the first entry carrying move. */
    method Remove(move: Move) returns (removed: bool)
      requires Valid()
      modifies this, buf
      ensures Valid()
      ensures removed <==> IndexOf(old(Entries()), move) < old(count)
      ensures removed ==> Entries() == RemoveAt(old(Entries()), IndexOf(old(Entries()), move))
      ensures !removed ==> Entries() == old(Entries())
    {
      for n := 0 to count
        invariant forall j :: 0 <= j < n ==> buf[j].move != move
      {
        if buf[n].move == move {
          ghost var s := buf[..count];
          assert IndexOf(s, move) == n;
          buf[n] := buf[count - 1];
          count := count - 1;
          assert buf[..count] == RemoveAt(s, n);
          return true;
        }
      }
      return false;
    }

    /** The enumerator: the moves in insertion order. */
    method Moves() returns (ms: seq<Move>)
      requires Valid()
      ensures ms == MovesOf(Entries())
    {
      ms := [];
      for n := 0 to count
        invariant ms == MovesOf(buf[..n])
      {
        ms := ms + [buf[n].move];
      }
      assert buf[..count] == Entries();
    }
  }
}

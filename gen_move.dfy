/** A move tagged with the staged-generation pass that produced it. */
module GenMoves {
  import opened Chess

  /** The generation stage (captures, promotions, quiets, ...); its values
      belong to the move generator, which is not part of this model. */
  type MoveGenPhase(==)

  /** The hash combiner HashCode.Combine (seeded per process; external). */
  const Combine: (Move, MoveGenPhase) -> int

  /** A boxed value as Equals(object) receives it. */
  datatype Object = Null | BoxedGenMove(gm: GenMove) | OtherObject

  /** The constructor GenMove(move, phase) is the datatype constructor. */
  datatype GenMove = GenMove(move: Move, movePhase: MoveGenPhase) {

    /** Equals(GenMove): field-wise equality. */
    function Equals(other: GenMove): (r: bool)
      ensures r <==> this == other
    {
      move == other.move && movePhase == other.movePhase
    }

    /** Equals(object): false for null and for anything that is not a GenMove. */
    function EqualsObject(obj: Object): (r: bool)
      ensures r <==> obj.BoxedGenMove? && Equals(obj.gm)
      ensures r <==> obj == BoxedGenMove(this)
    {
      if obj.Null? || !obj.BoxedGenMove? then false else Equals(obj.gm)
    }

    function GetHashCode(): int {
      Combine(move, movePhase)
    }
  }

  /** operator ==. */
  function Eq(lhs: GenMove, rhs: GenMove): (r: bool)
    ensures r <==> lhs == rhs
  {
    lhs.Equals(rhs)
  }

  /** operator !=. */
  function Neq(lhs: GenMove, rhs: GenMove): (r: bool)
    ensures r <==> lhs != rhs
  {
    !lhs.Equals(rhs)
  }

  /** Equals is an equivalence relation. */
  lemma EqualsIsEquivalence(a: GenMove, b: GenMove, c: GenMove)
    ensures a.Equals(a)
    ensures a.Equals(b) <==> b.Equals(a)
    ensures a.Equals(b) && b.Equals(c) ==> a.Equals(c)
  {
  }

  /** Equal values have equal hash codes. */
  lemma HashConsistent(a: GenMove, b: GenMove)
    requires a.Equals(b)
    ensures a.GetHashCode() == b.GetHashCode()
  {
  }
}

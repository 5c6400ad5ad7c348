/**
  The parent class of all chess pieces (chess_py/pieces/piece.py).

  The concrete subclasses (Pawn, Knight, ...) are represented by the `kind`
  field; their symbols are passed to the constructor exactly as the subclass
  constructors pass them to the parent. Nothing in the modelled code changes a
  piece after construction, so its fields are constants.
 */
module Pieces {
  import opened Notation

  class Piece {
    const kind: Kind
    const color: bool
    const location: Location
    const symbol: string

    /** Stores colour and location and picks the symbol that matches the colour. */
    constructor (kind: Kind, color: bool, location: Location, whiteSymbol: string, blackSymbol: string)
      ensures this.kind == kind && this.color == color && this.location == location
      ensures this.color == White ==> symbol == whiteSymbol
      ensures this.color != White ==> symbol == blackSymbol
    {
      this.kind := kind;
      this.color := color;
      this.location := location;
      if color == White {
        symbol := whiteSymbol;
      } else {
        symbol := blackSymbol;
      }
    }

    /**
      Python `==` on pieces: same concrete class and same colour. The location
      plays no part, and a comparison with None is false.
     */
    function Equals(other: Piece?): (r: bool)
      ensures r ==> other != null
      ensures other != null ==> (r <==> SameKindAndColor(this, other))
    {
      other != null && other.kind == kind && other.color == color
    }

    /** Python `!=` on pieces, the negation of `==`. */
    function NotEquals(other: Piece?): (r: bool)
      ensures r <==> other == null || other.kind != kind || other.color != color
      ensures r != Equals(other)
    {
      !Equals(other)
    }
  }

  /** The relation piece equality decides: location and symbol are not looked at. */
  predicate SameKindAndColor(a: Piece, b: Piece)
  {
    a.kind == b.kind && a.color == b.color
  }

  /** Piece equality is reflexive. */
  lemma EqualsReflexive(p: Piece)
    ensures p.Equals(p)
  {
  }

  /** Piece equality is symmetric. */
  lemma EqualsSymmetric(p: Piece, q: Piece)
    ensures p.Equals(q) <==> q.Equals(p)
  {
  }

  /** Pieces that differ only in where they stand (or in symbol) are equal. */
  lemma EqualsIgnoresLocation(p: Piece, q: Piece)
    requires p.kind == q.kind && p.color == q.color
    requires p.location != q.location
    ensures p.Equals(q) && q.Equals(p)
  {
  }
}

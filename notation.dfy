/**
  Shared vocabulary of the move-input layer: optional values, the outcome of a
  Python call that may raise, board squares, move statuses and piece kinds.

  Location, Color and the status constants belong to modules that are not part
  of this model; they are represented here by plain values.
 */
module Notation {

  /** Python's `None` for a value that is not an object (ranks, files, statuses). */
  datatype Option<T> = None | Some(value: T)

  /** `a` and `b` do not contradict each other: one of them is unset, or they agree. */
  predicate Compatible<T(==)>(a: Option<T>, b: Option<T>)
  {
    a.None? || b.None? || a == b
  }

  /** The exceptions the modelled code can raise. */
  datatype Fault =
    | NotADigit          // int() of a character that is not a decimal digit (ValueError)
    | NoneHasNoColor     // Move built with piece=None reads piece.color (AttributeError)
    | NotAMove           // make_legal's `assert isinstance(move, Move)` (AssertionError)
    | IndexOutOfRange    // long_alg indexing past the end of its argument (IndexError)
    | EmptyStartSquare   // long_alg: no piece on the start square
    | BadPromotionLetter // long_alg: fifth character outside Q, R, B, N

  /** A call that either returns a value or raises. */
  datatype Outcome<T> = Returned(value: T) | Raised(fault: Fault)

  /** Colour as a boolean: white is true, black is false. */
  const White: bool := true
  const Black: bool := false

  /** A board square as a (rank, file) pair; equality is componentwise. */
  datatype Location = Location(rank: int, file: int)
  {
    /** The square lies on the 8x8 board. */
    predicate OnBoard()
    {
      0 <= rank < 8 && 0 <= file < 8
    }
  }

  /** The move statuses of the notation constants. */
  datatype Status =
    | Movement
    | Capture
    | KingSideCastle
    | QueenSideCastle
    | Promote
    | StartLocSpecified

  /** The concrete piece classes. */
  datatype Kind = Pawn | Knight | Bishop | Rook | Queen | King
}

/**
  Chess moves (chess_py/core/algebraic/move.py) and the in-place stamping of a
  start square onto generated moves (Piece.set_loc in chess_py/pieces/piece.py).

  A Move is a descriptor: its three optional fields may be unset (None), and
  equality treats an unset field as a wildcard. Fields are mutable because
  set_loc overwrites start_rank and start_file after construction.
 */
module Moves {
  import opened Notation
  import opened Pieces

  class Move {
    var endLoc: Location
    var status: Option<Status>
    var piece: Piece
    var color: bool
    var startRank: Option<int>
    var startFile: Option<int>
    var promotedToPiece: Piece?

    /**
      Stores every argument as given and copies the piece's colour. The
      on-board guard of the source tests a bound method, which is always true,
      so construction never fails, even for a square off the board.
     */
    constructor (endLoc: Location, piece: Piece, status: Option<Status>,
                 startRank: Option<int>, startFile: Option<int>, promotedToPiece: Piece?)
      ensures this.endLoc == endLoc && this.piece == piece && this.status == status
      ensures this.color == piece.color
      ensures this.startRank == startRank && this.startFile == startFile
      ensures this.promotedToPiece == promotedToPiece
    {
      this.endLoc := endLoc;
      this.status := status;
      this.piece := piece;
      this.color := piece.color;
      this.startRank := startRank;
      this.startFile := startFile;
      this.promotedToPiece := promotedToPiece;
    }

    /**
      Python `==` on moves. Three early exits reject a conflict between two
      set values (status, start rank, start file, and promoted pieces compared
      with `equals`); then end square, piece and status must agree. `equals`
      stands for the `.equals` method the source calls on the promoted piece,
      which piece.py does not define.
     */
    function Equals(other: Move, equals: (Piece, Piece) -> bool): (r: bool)
      reads this, other
      ensures r <==>
        && endLoc == other.endLoc
        && piece.Equals(other.piece)
        && status == other.status
        && Compatible(startRank, other.startRank)
        && Compatible(startFile, other.startFile)
        && (promotedToPiece != null && other.promotedToPiece != null ==>
              equals(promotedToPiece, other.promotedToPiece))
    {
      if other.status.Some? && status.Some? && other.status != status then false
      else if other.startRank.Some? && startRank.Some? && other.startRank != startRank then false
      else if other.startFile.Some? && startFile.Some? && other.startFile != startFile then false
      else if other.promotedToPiece != null && promotedToPiece != null &&
              !equals(promotedToPiece, other.promotedToPiece) then false
      else endLoc == other.endLoc && piece.Equals(other.piece) && status == other.status
    }

    /** Python `!=` on moves: some required field differs or two set fields conflict. */
    function NotEquals(other: Move, equals: (Piece, Piece) -> bool): (r: bool)
      reads this, other
      ensures r <==>
        || endLoc != other.endLoc
        || !piece.Equals(other.piece)
        || status != other.status
        || !Compatible(startRank, other.startRank)
        || !Compatible(startFile, other.startFile)
        || (promotedToPiece != null && other.promotedToPiece != null &&
              !equals(promotedToPiece, other.promotedToPiece))
    {
      !Equals(other, equals)
    }

    /**
      The long algebraic rendering: the start square (built from the possibly
      unset start rank and file), the end square, then the promoted piece
      when there is one. The renderings of a square and of a piece belong to
      classes outside this model and are parameters.
     */
    function ToString(squareStr: (Option<int>, Option<int>) -> string, pieceStr: Piece -> string): (s: string)
      reads this
      ensures |squareStr(startRank, startFile)| == 2 && |squareStr(Some(endLoc.rank), Some(endLoc.file))| == 2 ==>
        && |s| >= 4
        && s[..2] == squareStr(startRank, startFile)
        && s[2..4] == squareStr(Some(endLoc.rank), Some(endLoc.file))
        && (promotedToPiece == null ==> |s| == 4)
        && (promotedToPiece != null ==> s[4..] == pieceStr(promotedToPiece))
    {
      squareStr(startRank, startFile) + squareStr(Some(endLoc.rank), Some(endLoc.file)) +
      (if promotedToPiece != null then pieceStr(promotedToPiece) else "")
    }

    /** The move ends on the board. */
    function OnBoard(): (r: bool)
      reads this
      ensures r <==> 0 <= endLoc.rank < 8 && 0 <= endLoc.file < 8
    {
      endLoc.OnBoard()
    }

    /** The move ends on the rank where a pawn of the moving colour promotes. */
    function WouldMoveBePromotion(): (r: bool)
      reads this
      ensures r <==> endLoc.rank == FarRank(color)
    {
      if endLoc.rank == 0 && !color then true
      else if endLoc.rank == 7 && color then true
      else false
    }
  }

  /** The back rank of the opponent of `color`: 7 for white, 0 for black. */
  function FarRank(color: bool): int
  {
    if color == White then 7 else 0
  }

  /**
    Move equality is reflexive when the promoted piece `.equals` itself.
   */
  lemma EqualsReflexive(m: Move, equals: (Piece, Piece) -> bool)
    requires m.promotedToPiece != null ==> equals(m.promotedToPiece, m.promotedToPiece)
    ensures m.Equals(m, equals)
  {
  }

  /** Move equality is symmetric when `.equals` is symmetric on the two promoted pieces. */
  lemma EqualsSymmetric(a: Move, b: Move, equals: (Piece, Piece) -> bool)
    requires a.promotedToPiece != null && b.promotedToPiece != null ==>
      (equals(a.promotedToPiece, b.promotedToPiece) <==> equals(b.promotedToPiece, a.promotedToPiece))
    ensures a.Equals(b, equals) <==> b.Equals(a, equals)
  {
  }

  /**
    Move equality is not transitive: an unset start file equals both 2 and 3,
    while 2 and 3 differ.
   */
  lemma EqualsNotTransitive(a: Move, b: Move, c: Move, equals: (Piece, Piece) -> bool)
    requires a.endLoc == b.endLoc == c.endLoc
    requires a.piece.Equals(b.piece) && b.piece.Equals(c.piece)
    requires a.status == b.status == c.status
    requires a.startRank == b.startRank == c.startRank
    requires a.promotedToPiece == b.promotedToPiece == c.promotedToPiece == null
    requires a.startFile == Some(2) && b.startFile == None && c.startFile == Some(3)
    ensures a.Equals(b, equals) && b.Equals(c, equals) && !a.Equals(c, equals)
  {
  }

  /**
    The test of the converter compares a resolved move with a move that has no
    start square: the unset fields accept whatever start square the resolved
    move carries.
   */
  lemma StartlessMoveEqualsResolved(expected: Move, resolved: Move, equals: (Piece, Piece) -> bool)
    requires expected.startRank.None? && expected.startFile.None? && expected.promotedToPiece == null
    requires expected.endLoc == resolved.endLoc && expected.status == resolved.status
    requires expected.piece.Equals(resolved.piece)
    ensures resolved.Equals(expected, equals) && expected.Equals(resolved, equals)
  {
  }

  /**
    Piece.set_loc: stamps the piece's square onto every move of the list, in
    place. Only start rank and start file change; the list itself is not
    touched.
   */
  method SetLoc(piece: Piece, moves: seq<Move>)
    modifies moves
    ensures forall m :: m in moves ==>
      m.startRank == Some(piece.location.rank) && m.startFile == Some(piece.location.file)
    ensures forall m :: m in moves ==>
      && m.endLoc == old(m.endLoc) && m.status == old(m.status) && m.piece == old(m.piece)
      && m.color == old(m.color) && m.promotedToPiece == old(m.promotedToPiece)
  {
    for i := 0 to |moves|
      invariant forall j :: 0 <= j < i ==>
        moves[j].startRank == Some(piece.location.rank) && moves[j].startFile == Some(piece.location.file)
      invariant forall m :: m in moves ==>
        && m.endLoc == old(m.endLoc) && m.status == old(m.status) && m.piece == old(m.piece)
        && m.color == old(m.color) && m.promotedToPiece == old(m.promotedToPiece)
    {
      moves[i].startRank := Some(piece.location.rank);
      moves[i].startFile := Some(piece.location.file);
    }
  }

  /** A castle status: the candidate is identified by its equality with the list move alone. */
  predicate IsCastle(status: Option<Status>)
  {
    status == Some(KingSideCastle) || status == Some(QueenSideCastle)
  }

  /**
    The match rule of make_legal for a candidate `move` and a move `test` of
    the supplied list. A candidate with START_LOC_SPECIFIED matches on end
    square, start rank and start file alone. Otherwise the moves must be equal;
    castles then match at once, and every other candidate also needs each
    disambiguator it sets to be present on `test` with the same value: by
    value for rank and file, by object identity for the promoted piece.
   */
  predicate Matches(move: Move, test: Move, equals: (Piece, Piece) -> bool): (r: bool)
    reads move, test
    ensures r ==> test.endLoc == move.endLoc
    ensures r && move.status != Some(StartLocSpecified) ==>
      test.piece.kind == move.piece.kind && test.piece.color == move.piece.color && test.status == move.status
    ensures r && move.status == Some(StartLocSpecified) ==>
      test.startRank == move.startRank && test.startFile == move.startFile
  {
    if move.status == Some(StartLocSpecified) then
      move.endLoc == test.endLoc && move.startRank == test.startRank && move.startFile == test.startFile
    else
      && move.Equals(test, equals)
      && (|| IsCastle(move.status)
          || (&& (move.startRank.None? || move.startRank == test.startRank)
              && (move.startFile.None? || move.startFile == test.startFile)
              && (move.promotedToPiece == null || move.promotedToPiece == test.promotedToPiece)))
  }

  /**
    In START_LOC_SPECIFIED mode two list moves that agree on end square, start
    rank and start file are matched alike: piece, status and promotion are
    ignored.
   */
  lemma StartLocIgnoresRest(move: Move, t1: Move, t2: Move, equals: (Piece, Piece) -> bool)
    requires move.status == Some(StartLocSpecified)
    requires t1.endLoc == t2.endLoc && t1.startRank == t2.startRank && t1.startFile == t2.startFile
    ensures Matches(move, t1, equals) <==> Matches(move, t2, equals)
    ensures Matches(move, t1, equals) <==>
      move.endLoc == t1.endLoc && move.startRank == t1.startRank && move.startFile == t1.startFile
  {
  }

  /** A castle candidate matches exactly the list moves it is equal to. */
  lemma CastleMatchesIffEqual(move: Move, test: Move, equals: (Piece, Piece) -> bool)
    requires IsCastle(move.status)
    ensures Matches(move, test, equals) <==> move.Equals(test, equals)
  {
  }

  /**
    Any other candidate matches a list move exactly when end square, piece and
    status agree, every start coordinate the candidate sets is present with
    the same value on the list move, and a promoted piece the candidate sets is
    the very same object as the list move's (which must then `.equals` itself).
   */
  lemma DisambiguatedMatchIff(move: Move, test: Move, equals: (Piece, Piece) -> bool)
    requires move.status != Some(StartLocSpecified) && !IsCastle(move.status)
    ensures Matches(move, test, equals) <==>
      && move.endLoc == test.endLoc
      && move.piece.Equals(test.piece)
      && move.status == test.status
      && (move.startRank.Some? ==> test.startRank == move.startRank)
      && (move.startFile.Some? ==> test.startFile == move.startFile)
      && (move.promotedToPiece != null ==>
            test.promotedToPiece == move.promotedToPiece && equals(move.promotedToPiece, move.promotedToPiece))
  {
  }

  /**
    A disambiguator the candidate sets rejects every list move where that field
    is None, and a promoted piece is compared by identity: a different object,
    even one equal in kind and colour, is rejected.
   */
  lemma UnsetOrOtherDisambiguatorRejected(move: Move, test: Move, equals: (Piece, Piece) -> bool)
    requires move.status != Some(StartLocSpecified) && !IsCastle(move.status)
    requires || (move.startRank.Some? && test.startRank.None?)
             || (move.startFile.Some? && test.startFile.None?)
             || (move.promotedToPiece != null && move.promotedToPiece != test.promotedToPiece)
    ensures !Matches(move, test, equals)
  {
  }
}

/**
  What each arm of incomplete_alg produces, the arms that can never fire, and
  how short_alg, long_alg and the long algebraic rendering of a move fit
  together.
 */
module ConverterProperties {
  import opened Notation
  import opened Pieces
  import opened Moves
  import opened Converter

  /** "00" and "000" are castles of the king from its home square, tested before any length. */
  lemma CastleTokens(color: bool)
    ensures EdgeRank(color) == if color == White then 0 else 7
    ensures var edge := EdgeRank(color);
      Recognize("00", color) ==
        Read(Shape(Location(edge, 6), Some(King), Location(edge, 4), KingSideCastle, Some(edge), Some(4), None))
    ensures var edge := EdgeRank(color);
      Recognize("000", color) ==
        Read(Shape(Location(edge, 2), Some(King), Location(edge, 4), QueenSideCastle, Some(edge), Some(4), None))
  {
  }

  /** A 2-character token other than "00" is a pawn move to (digit - 1, letter - 'a') with nothing else set. */
  lemma PawnMove(token: string, color: bool)
    requires |token| == 2 && token != "00"
    ensures '0' <= token[1] <= '9' ==>
      var end := Location(token[1] as int - '0' as int - 1, token[0] as int - 'a' as int);
      Recognize(token, color) == Read(Shape(end, Some(Pawn), end, Movement, None, None, None))
    ensures !('0' <= token[1] <= '9') ==> Recognize(token, color) == Fails(NotADigit)
  {
  }

  /** A 3-character token other than "000" names its piece by a letter; an unknown letter makes it Unrecognized. */
  lemma PieceMove(token: string, color: bool)
    requires |token| == 3 && token != "000"
    ensures !('0' <= token[2] <= '9') ==> Recognize(token, color) == Fails(NotADigit)
    ensures '0' <= token[2] <= '9' && KindOf(token[0]).None? ==> Recognize(token, color) == Unrecognized
    ensures '0' <= token[2] <= '9' && KindOf(token[0]).Some? ==>
      var end := Location(token[2] as int - '0' as int - 1, token[1] as int - 'a' as int);
      Recognize(token, color) == Read(Shape(end, KindOf(token[0]), end, Movement, None, None, None))
  {
  }

  /** "exd5": a pawn capture whose start file is read from the first character. */
  lemma PawnCapture(token: string, color: bool)
    requires |token| == 4 && (token[1] == 'x' || token[1] == 'X') && !('A' <= token[0] <= 'Z')
    ensures !('0' <= token[3] <= '9') ==> Recognize(token, color) == Fails(NotADigit)
    ensures '0' <= token[3] <= '9' ==>
      var end := Location(token[3] as int - '0' as int - 1, token[2] as int - 'a' as int);
      Recognize(token, color) ==
        Read(Shape(end, Some(Pawn), end, Capture, None, Some(token[0] as int - 'a' as int), None))
  {
  }

  /**
    "Qxf3": a piece capture with no start square. An upper-case letter that
    names no piece leaves the piece unset, so the token raises instead of
    being rejected.
   */
  lemma PieceCapture(token: string, color: bool)
    requires |token| == 4 && (token[1] == 'x' || token[1] == 'X') && 'A' <= token[0] <= 'Z'
    ensures !('0' <= token[3] <= '9') ==> Recognize(token, color) == Fails(NotADigit)
    ensures '0' <= token[3] <= '9' ==>
      var end := Location(token[3] as int - '0' as int - 1, token[2] as int - 'a' as int);
      Recognize(token, color) == Read(Shape(end, KindOf(token[0]), end, Capture, None, None, None))
    ensures '0' <= token[3] <= '9' && token[0] !in "RNBQK" ==> Recognize(token, color).shape.piece.None?
  {
  }

  /**
    Every 4-character token without a capture mark is Unrecognized: the
    promotion arm ("e8=Q") and the file-disambiguation arm sit inside the
    capture test, so such a token never reaches them.
   */
  lemma NonCaptureLength4Unrecognized(token: string, color: bool)
    requires |token| == 4 && token[1] != 'x' && token[1] != 'X'
    ensures Recognize(token, color) == Unrecognized
  {
  }

  /**
    Inside the capture test the first two arms cover every first character,
    so the promotion arm and the file-disambiguation arm never fire: a
    4-character token with a capture mark is a CAPTURE or raises, and the
    tokens those arms were written for are Unrecognized.
   */
  lemma DeadLength4Arms(token: string, color: bool)
    requires |token| == 4 && (token[1] == 'x' || token[1] == 'X')
    ensures Recognize(token, color).Fails? || Recognize(token, color).Read?
    ensures Recognize(token, color).Read? ==>
      Recognize(token, color).shape.status == Capture && Recognize(token, color).shape.promoted.None?
    ensures Recognize("e8=Q", color) == Unrecognized
    ensures Recognize("bNd2", color) == Unrecognized
  {
  }

  /** No token ever reads as a PROMOTE move, and no arm but length 6 sets a promoted piece. */
  lemma NoArmPromotes(token: string, color: bool)
    ensures Recognize(token, color).Read? ==> Recognize(token, color).shape.status != Promote
    ensures Recognize(token, color).Read? && Recognize(token, color).shape.promoted.Some? ==> |token| == 6
  {
  }

  /**
    A 5-character token with an upper-case third character is a piece move
    with start file and start rank; any other 5-character token is
    Unrecognized.
   */
  lemma FullyDisambiguatedMove(token: string, color: bool)
    requires |token| == 5
    ensures !('A' <= token[2] <= 'Z') ==> Recognize(token, color) == Unrecognized
    ensures 'A' <= token[2] <= 'Z' && !('0' <= token[4] <= '9') ==> Recognize(token, color) == Fails(NotADigit)
    ensures 'A' <= token[2] <= 'Z' && '0' <= token[4] <= '9' && !('0' <= token[1] <= '9') ==>
      Recognize(token, color) == Fails(NotADigit)
    ensures 'A' <= token[2] <= 'Z' && '0' <= token[4] <= '9' && '0' <= token[1] <= '9' ==>
      var end := Location(token[4] as int - '0' as int - 1, token[3] as int - 'a' as int);
      Recognize(token, color) ==
        Read(Shape(end, KindOf(token[2]), end, Movement,
                   Some(token[1] as int - '0' as int - 1), Some(token[0] as int - 'a' as int), None))
  {
  }

  /**
    A 6-character token raises unless its fourth character is a digit, and is
    otherwise a pawn MOVEMENT
    (neither CAPTURE nor PROMOTE) with start file and promoted piece, which
    is unset when the last character names no piece.
   */
  lemma PromotionCapture(token: string, color: bool)
    requires |token| == 6
    ensures !('0' <= token[3] <= '9') ==> Recognize(token, color) == Fails(NotADigit)
    ensures '0' <= token[3] <= '9' ==>
      var end := Location(token[3] as int - '0' as int - 1, token[2] as int - 'a' as int);
      Recognize(token, color) ==
        Read(Shape(end, Some(Pawn), end, Movement, None, Some(token[0] as int - 'a' as int), KindOf(token[5])))
  {
  }

  /** The length-6 arm never looks at characters 1 and 4. */
  lemma Length6IgnoresSecondAndFifth(t1: string, t2: string, color: bool)
    requires |t1| == 6 && |t2| == 6
    requires t1[0] == t2[0] && t1[2] == t2[2] && t1[3] == t2[3] && t1[5] == t2[5]
    ensures Recognize(t1, color) == Recognize(t2, color)
  {
  }

  /** Tokens of length 0, 1, or 7 and more are Unrecognized. */
  lemma OtherLengthsUnrecognized(token: string, color: bool)
    requires |token| <= 1 || |token| >= 7
    ensures Recognize(token, color) == Unrecognized
  {
  }

  /**
    The on-board guard of the Move constructor never fires: "i9" names the
    square (8, 8), off the board, and still builds a pawn move.
   */
  lemma OffBoardTokenStillBuilds(color: bool)
    ensures Recognize("i9", color) == Read(Shape(Location(8, 8), Some(Pawn), Location(8, 8), Movement, None, None, None))
    ensures !Location(8, 8).OnBoard()
  {
  }

  /**
    The converter's test: a move that "e4" resolves to for white equals the
    expected white pawn move to (3, 4), which carries no start square.
   */
  lemma E4ResolvesToExpected(resolved: Move, expected: Move, equals: (Piece, Piece) -> bool)
    requires ShapeMatches(Recognize("e4", White).shape, White, resolved)
    requires expected.endLoc == Location(3, 4) && expected.status == Some(Movement)
    requires expected.piece.kind == Pawn && expected.piece.color == White
    requires expected.startRank.None? && expected.startFile.None? && expected.promotedToPiece == null
    ensures resolved.Equals(expected, equals)
  {
  }

  /**
    Rendering a listed move in long algebraic form and reading it back with
    long_alg finds a move with the same start and end squares: the first
    such move of the list, which may differ in its promoted piece, since the
    START_LOC_SPECIFIED match ignores promotion.
   */
  method LongAlgOfRendering(m: Move, squareStr: (Option<int>, Option<int>) -> string, pieceStr: Piece -> string,
                            initAlg: string -> Location, pieceAt: Location -> Piece?,
                            legalMoves: bool -> seq<Move>, equals: (Piece, Piece) -> bool,
                            glyphs: Kind -> (string, string))
    returns (r: Outcome<Move?>)
    requires m.startRank.Some? && m.startFile.Some?
    requires |squareStr(m.startRank, m.startFile)| == 2
    requires |squareStr(Some(m.endLoc.rank), Some(m.endLoc.file))| == 2
    requires initAlg(squareStr(m.startRank, m.startFile)) == Location(m.startRank.value, m.startFile.value)
    requires initAlg(squareStr(Some(m.endLoc.rank), Some(m.endLoc.file))) == m.endLoc
    requires m.promotedToPiece == null || pieceStr(m.promotedToPiece) in ["Q", "R", "B", "N"]
    requires pieceAt(Location(m.startRank.value, m.startFile.value)) != null
    requires m in legalMoves(pieceAt(Location(m.startRank.value, m.startFile.value)).color)
    ensures r.Returned? && r.value != null
    ensures r.value.endLoc == m.endLoc && r.value.startRank == m.startRank && r.value.startFile == m.startFile
  {
    var s := m.ToString(squareStr, pieceStr);
    r := LongAlg(s, initAlg, pieceAt, legalMoves, equals, glyphs);
    var moves := legalMoves(pieceAt(Location(m.startRank.value, m.startFile.value)).color);
    var k :| 0 <= k < |moves| && moves[k] == m;
    assert LeavesFor(Location(m.startRank.value, m.startFile.value), m.endLoc, moves[k]);
  }
}

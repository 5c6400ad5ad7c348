/**
  Conversion of algebraic move strings into moves of a position
  (chess_py/core/algebraic/converter.py).

  `Recognize` is the length- and character-keyed dispatch of incomplete_alg,
  stated on values: it says which arm fires and which fields that arm sets.
  `IncompleteAlg` builds the Piece and Move objects the arm describes,
  `MakeLegal` scans the supplied legal moves for the first match, and
  `ShortAlg` and `LongAlg` are the two entry points.

  The board is not part of this model: its list of legal moves, its square
  lookup and the square parser of Location are parameters. `equals` stands
  for the `.equals` method that Move equality calls on promoted pieces, and
  `glyphs` for the white and black symbols each concrete piece class passes
  to the Piece constructor.
 */
module Converter {
  import opened Notation
  import opened Pieces
  import opened Moves

  /** edge_rank: the back rank of `color`, 0 for white and 7 for black. */
  function EdgeRank(color: bool): (r: int)
    ensures 0 <= r < 8
    ensures r == FarRank(!color)
  {
    if color == White then 0 else 7
  }

  /** str.isupper() on one character, for ASCII input. */
  predicate IsUpper(c: char)
  {
    'A' <= c <= 'Z'
  }

  /** str.upper() on one character, for ASCII input. */
  function Upper(c: char): char
  {
    if 'a' <= c <= 'z' then (c as int - 32) as char else c
  }

  /** set_rank on the character it indexes: int(c) - 1, which raises unless `c` is a digit. */
  function RankOf(c: char): (r: Option<int>)
    ensures r.Some? <==> '0' <= c <= '9'
    ensures r.Some? ==> -1 <= r.value <= 8 && r.value + 1 == c as int - '0' as int
    ensures r.Some? ==> (0 <= r.value < 8 <==> '1' <= c <= '8')
  {
    if '0' <= c <= '9' then Some(c as int - '0' as int - 1) else None
  }

  /** set_file on the character it indexes: ord(c) - 97, defined for every character. */
  function FileOf(c: char): (f: int)
    ensures 0 <= f < 8 <==> 'a' <= c <= 'h'
    ensures f < 0 <==> c < 'a'
  {
    c as int - 97
  }

  /** The piece class set_piece chooses for a letter, case-insensitively; None for any other character. */
  function KindOf(c: char): (k: Option<Kind>)
    ensures k == Some(Rook) <==> c == 'R' || c == 'r'
    ensures k == Some(Knight) <==> c == 'N' || c == 'n'
    ensures k == Some(Bishop) <==> c == 'B' || c == 'b'
    ensures k == Some(Queen) <==> c == 'Q' || c == 'q'
    ensures k == Some(King) <==> c == 'K' || c == 'k'
    ensures k != Some(Pawn)
  {
    var u := Upper(c);
    if u == 'R' then Some(Rook)
    else if u == 'N' then Some(Knight)
    else if u == 'B' then Some(Bishop)
    else if u == 'Q' then Some(Queen)
    else if u == 'K' then Some(King)
    else None
  }

  /**
    What one arm of incomplete_alg builds: the end square, the moving piece's
    class (None when set_piece found no piece) and square, the status, the
    disambiguators and the class of the promoted piece. Every piece has the
    mover's colour; a promoted piece stands on the end square.
   */
  datatype Shape = Shape(endLoc: Location, piece: Option<Kind>, pieceLoc: Location, status: Status,
                         startRank: Option<int>, startFile: Option<int>, promoted: Option<Kind>)

  /** No arm applies (the source returns None), an int() call raises, or an arm builds a move. */
  datatype Reading = Unrecognized | Fails(fault: Fault) | Read(shape: Shape)

  /**
    The dispatch of incomplete_alg. Castle tokens are tested first, then the
    length. Each arm reads its end square (rank first, then file) before the
    other fields, so a non-digit rank character fails before anything else
    is looked at. The length-4 branch keeps all four arms of the source,
    including the promotion arm and the file-disambiguation arm that follow
    an if/elif on `isupper()` and its negation; the characters are read
    before the arms so that those arms check nothing. The length-6 arm reads
    characters 0, 2, 3 and 5 only.
   */
  function Recognize(token: string, color: bool): (r: Reading)
    ensures r.Read? ==> r.shape.status in {Movement, Capture, KingSideCastle, QueenSideCastle}
    ensures r.Read? && r.shape.promoted.Some? ==> r.shape.status == Movement && r.shape.piece == Some(Pawn)
  {
    var edge := EdgeRank(color);
    if token == "00" then
      Read(Shape(Location(edge, 6), Some(King), Location(edge, 4), KingSideCastle, Some(edge), Some(4), None))
    else if token == "000" then
      Read(Shape(Location(edge, 2), Some(King), Location(edge, 4), QueenSideCastle, Some(edge), Some(4), None))
    else if |token| == 2 then
      match RankOf(token[1])
      case None => Fails(NotADigit)
      case Some(rank) =>
        var end := Location(rank, FileOf(token[0]));
        Read(Shape(end, Some(Pawn), end, Movement, None, None, None))
    else if |token| == 3 then
      match RankOf(token[2])
      case None => Fails(NotADigit)
      case Some(rank) =>
        var end := Location(rank, FileOf(token[1]));
        if KindOf(token[0]).Some? then Read(Shape(end, KindOf(token[0]), end, Movement, None, None, None))
        else Unrecognized
    else if |token| == 4 then
      var c0, c1, c2, c3 := token[0], token[1], token[2], token[3];
      if Upper(c1) == 'X' then
        if !IsUpper(c0) then
          match RankOf(c3)
          case None => Fails(NotADigit)
          case Some(rank) =>
            var end := Location(rank, FileOf(c2));
            Read(Shape(end, Some(Pawn), end, Capture, None, Some(FileOf(c0)), None))
        else if IsUpper(c0) then
          match RankOf(c3)
          case None => Fails(NotADigit)
          case Some(rank) =>
            var end := Location(rank, FileOf(c2));
            Read(Shape(end, KindOf(c0), end, Capture, None, None, None))
        else if c2 == '=' then
          match RankOf(c1)
          case None => Fails(NotADigit)
          case Some(rank) =>
            var end := Location(rank, FileOf(c0));
            Read(Shape(end, Some(Pawn), end, Promote, None, None, KindOf(c3)))
        else if IsUpper(c1) then
          match RankOf(c3)
          case None => Fails(NotADigit)
          case Some(rank) =>
            var end := Location(rank, FileOf(c2));
            Read(Shape(end, KindOf(c1), end, Movement, None, Some(FileOf(c0)), None))
        else Unrecognized
      else Unrecognized
    else if |token| == 5 then
      if IsUpper(token[2]) then
        match RankOf(token[4])
        case None => Fails(NotADigit)
        case Some(rank) =>
          var end := Location(rank, FileOf(token[3]));
          match RankOf(token[1])
          case None => Fails(NotADigit)
          case Some(startRank) =>
            Read(Shape(end, KindOf(token[2]), end, Movement, Some(startRank), Some(FileOf(token[0])), None))
      else Unrecognized
    else if |token| == 6 then
      match RankOf(token[3])
      case None => Fails(NotADigit)
      case Some(rank) =>
        var end := Location(rank, FileOf(token[2]));
        Read(Shape(end, Some(Pawn), end, Movement, None, Some(FileOf(token[0])), KindOf(token[5])))
    else Unrecognized
  }

  /** The move `m` is the object an arm describing `shape` builds for `color`. */
  predicate Realizes(m: Move, shape: Shape, color: bool, glyphs: Kind -> (string, string))
    reads m
  {
    && shape.piece.Some?
    && m.endLoc == shape.endLoc
    && m.piece.kind == shape.piece.value && m.piece.color == color && m.piece.location == shape.pieceLoc
    && m.piece.symbol == (if color == White then glyphs(shape.piece.value).0 else glyphs(shape.piece.value).1)
    && m.color == color
    && m.status == Some(shape.status)
    && m.startRank == shape.startRank && m.startFile == shape.startFile
    && (m.promotedToPiece == null <==> shape.promoted.None?)
    && (m.promotedToPiece != null ==>
          m.promotedToPiece.kind == shape.promoted.value && m.promotedToPiece.color == color
          && m.promotedToPiece.location == shape.endLoc)
  }

  /** A new piece of the concrete class `kind`, with that class's symbols. */
  method NewPiece(kind: Kind, color: bool, location: Location, glyphs: Kind -> (string, string))
    returns (p: Piece)
    ensures fresh(p)
    ensures p.kind == kind && p.color == color && p.location == location
    ensures p.symbol == if color == White then glyphs(kind).0 else glyphs(kind).1
  {
    p := new Piece(kind, color, location, glyphs(kind).0, glyphs(kind).1);
  }

  /**
    incomplete_alg: the move an algebraic token describes, or None, or the
    exception the source raises. An arm whose set_piece found no piece passes
    piece=None to the Move constructor, which fails reading its colour.
   */
  method IncompleteAlg(token: string, color: bool, glyphs: Kind -> (string, string)) returns (r: Outcome<Move?>)
    ensures var rd := Recognize(token, color);
      && (rd.Unrecognized? ==> r == Returned(null))
      && (rd.Fails? ==> r == Raised(rd.fault))
      && (rd.Read? && rd.shape.piece.None? ==> r == Raised(NoneHasNoColor))
      && (rd.Read? && rd.shape.piece.Some? ==>
            && r.Returned? && r.value != null && fresh(r.value) && fresh(r.value.piece)
            && Realizes(r.value, rd.shape, color, glyphs)
            && (r.value.promotedToPiece != null ==> fresh(r.value.promotedToPiece)))
  {
    match Recognize(token, color)
    case Unrecognized =>
      r := Returned(null);
    case Fails(fault) =>
      r := Raised(fault);
    case Read(shape) =>
      if shape.piece.None? {
        r := Raised(NoneHasNoColor);
      } else {
        var piece := NewPiece(shape.piece.value, color, shape.pieceLoc, glyphs);
        var promoted: Piece? := null;
        if shape.promoted.Some? {
          promoted := NewPiece(shape.promoted.value, color, shape.endLoc, glyphs);
        }
        var m := new Move(shape.endLoc, piece, Some(shape.status), shape.startRank, shape.startFile, promoted);
        r := Returned(m);
      }
  }

  /**
    make_legal: the first move of `moves` that the candidate matches, None
    when there is none, and an AssertionError when the candidate is None.
   */
  method MakeLegal(move: Move?, moves: seq<Move>, equals: (Piece, Piece) -> bool) returns (r: Outcome<Move?>)
    ensures move == null <==> r == Raised(NotAMove)
    ensures move != null ==> r.Returned?
    ensures move != null && r.Returned? && r.value == null ==>
      forall i :: 0 <= i < |moves| ==> !Matches(move, moves[i], equals)
    ensures move != null && r.Returned? && r.value != null ==>
      exists i :: 0 <= i < |moves| && moves[i] == r.value && Matches(move, moves[i], equals) &&
        forall j :: 0 <= j < i ==> !Matches(move, moves[j], equals)
  {
    if move == null {
      return Raised(NotAMove);
    }
    for i := 0 to |moves|
      invariant forall j :: 0 <= j < i ==> !Matches(move, moves[j], equals)
    {
      var test := moves[i];
      if move.status == Some(StartLocSpecified) {
        if move.endLoc == test.endLoc && move.startRank == test.startRank && move.startFile == test.startFile {
          return Returned(test);
        } else {
          continue;
        }
      }
      if move.Equals(test, equals) {
        if IsCastle(move.status) {
          return Returned(test);
        }
        if move.startRank.Some? && move.startRank != test.startRank {
          continue;
        }
        if move.startFile.Some? && move.startFile != test.startFile {
          continue;
        }
        if move.promotedToPiece != null && move.promotedToPiece != test.promotedToPiece {
          continue;
        }
        return Returned(test);
      }
    }
    return Returned(null);
  }

  /**
    When the token of `shape` resolves against `test`, for the candidate that
    incomplete_alg builds: end square, piece class, colour and status agree;
    a castle also tolerates unset start coordinates on `test`; any other arm
    needs each start coordinate it reads to be on `test`, and it never
    resolves a promotion, because the promoted piece it creates is a new
    object that no listed move holds.
   */
  predicate ShapeMatches(shape: Shape, color: bool, test: Move)
    reads test
  {
    && shape.piece.Some?
    && test.endLoc == shape.endLoc
    && test.piece.kind == shape.piece.value && test.piece.color == color
    && test.status == Some(shape.status)
    && if IsCastle(Some(shape.status)) then
         Compatible(shape.startRank, test.startRank) && Compatible(shape.startFile, test.startFile)
       else
         && (shape.startRank.Some? ==> test.startRank == shape.startRank)
         && (shape.startFile.Some? ==> test.startFile == shape.startFile)
         && shape.promoted.None?
  }

  /** For a candidate built by IncompleteAlg, the match rule of make_legal is ShapeMatches. */
  lemma MatchesBuiltCandidate(move: Move, test: Move, shape: Shape, color: bool,
                              equals: (Piece, Piece) -> bool, glyphs: Kind -> (string, string))
    requires Realizes(move, shape, color, glyphs)
    requires shape.status != StartLocSpecified
    requires shape.promoted.Some? ==> shape.status == Movement
    requires move.promotedToPiece == null || move.promotedToPiece != test.promotedToPiece
    ensures Matches(move, test, equals) <==> ShapeMatches(shape, color, test)
  {
  }

  /**
    short_alg: parse the token and resolve it against the mover's legal moves.
    An unrecognized token reaches make_legal as None and fails its assert
    instead of yielding None.
   */
  method ShortAlg(token: string, color: bool, moves: seq<Move>,
                  equals: (Piece, Piece) -> bool, glyphs: Kind -> (string, string))
    returns (r: Outcome<Move?>)
    ensures var rd := Recognize(token, color);
      && (rd.Unrecognized? ==> r == Raised(NotAMove))
      && (rd.Fails? ==> r == Raised(rd.fault))
      && (rd.Read? && rd.shape.piece.None? ==> r == Raised(NoneHasNoColor))
      && (rd.Read? && rd.shape.piece.Some? ==> r.Returned?)
    ensures var rd := Recognize(token, color);
      rd.Read? && r.Returned? && r.value == null ==>
        forall i :: 0 <= i < |moves| ==> !ShapeMatches(rd.shape, color, moves[i])
    ensures var rd := Recognize(token, color);
      rd.Read? && r.Returned? && r.value != null ==>
        exists i :: 0 <= i < |moves| && moves[i] == r.value && ShapeMatches(rd.shape, color, moves[i]) &&
          forall j :: 0 <= j < i ==> !ShapeMatches(rd.shape, color, moves[j])
    ensures var rd := Recognize(token, color);
      rd.Read? && rd.shape.piece.Some? && rd.shape.promoted.Some? ==> r == Returned(null)
  {
    var candidate := IncompleteAlg(token, color, glyphs);
    if candidate.Raised? {
      return candidate;
    }
    r := MakeLegal(candidate.value, moves, equals);
    if candidate.value != null {
      var shape := Recognize(token, color).shape;
      forall i | 0 <= i < |moves|
        ensures Matches(candidate.value, moves[i], equals) <==> ShapeMatches(shape, color, moves[i])
      {
        MatchesBuiltCandidate(candidate.value, moves[i], shape, color, equals, glyphs);
      }
    }
  }

  /** The list move `test` leaves `start` for `end`. */
  predicate LeavesFor(start: Location, end: Location, test: Move)
    reads test
  {
    test.endLoc == end && test.startRank == Some(start.rank) && test.startFile == Some(start.file)
  }

  /**
    long_alg: start square from characters 0-1, end square from characters
    2-3, and for a 5-character token a promotion letter Q, R, B or N; the
    result is the first move of the start piece's side that leaves the start
    square for the end square, whatever its piece, status or promotion.
    Characters after the fourth are ignored unless there are exactly five.
   */
  method LongAlg(token: string, initAlg: string -> Location, pieceAt: Location -> Piece?,
                 legalMoves: bool -> seq<Move>, equals: (Piece, Piece) -> bool,
                 glyphs: Kind -> (string, string))
    returns (r: Outcome<Move?>)
    ensures |token| < 4 ==> r == Raised(IndexOutOfRange)
    ensures |token| >= 4 && pieceAt(initAlg(token[..2])) == null ==> r == Raised(EmptyStartSquare)
    ensures |token| == 5 && pieceAt(initAlg(token[..2])) != null && token[4] !in "QRBN" ==>
      r == Raised(BadPromotionLetter)
    ensures |token| >= 4 && pieceAt(initAlg(token[..2])) != null && (|token| == 5 ==> token[4] in "QRBN") ==>
      var start, end := initAlg(token[..2]), initAlg(token[2..4]);
      var moves := legalMoves(pieceAt(start).color);
      && r.Returned?
      && (r.value == null ==> forall i :: 0 <= i < |moves| ==> !LeavesFor(start, end, moves[i]))
      && (r.value != null ==>
            exists i :: 0 <= i < |moves| && moves[i] == r.value && LeavesFor(start, end, moves[i]) &&
              forall j :: 0 <= j < i ==> !LeavesFor(start, end, moves[j]))
  {
    if |token| < 4 {
      return Raised(IndexOutOfRange);
    }
    var end := initAlg(token[2..4]);
    var start := initAlg(token[..2]);
    var piece := pieceAt(start);
    if piece == null {
      return Raised(EmptyStartSquare);
    }
    var promoted: Piece? := null;
    if |token| == 5 {
      if token[4] == 'Q' {
        promoted := NewPiece(Queen, piece.color, end, glyphs);
      } else if token[4] == 'R' {
        promoted := NewPiece(Rook, piece.color, end, glyphs);
      } else if token[4] == 'B' {
        promoted := NewPiece(Bishop, piece.color, end, glyphs);
      } else if token[4] == 'N' {
        promoted := NewPiece(Knight, piece.color, end, glyphs);
      } else {
        return Raised(BadPromotionLetter);
      }
    }
    var move := new Move(end, piece, Some(StartLocSpecified), Some(start.rank), Some(start.file), promoted);
    r := MakeLegal(move, legalMoves(move.color), equals);
  }
}

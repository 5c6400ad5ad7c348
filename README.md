# Algebraic move input of chess_py, in Dafny

This project models the textual move-input layer of the chess_py engine. That layer turns a move written in
simplified algebraic notation into one legal move of the position. Castles are written "00" and "000", and
the long form is start square, end square and an optional promotion letter.

- `Notation` (notation.dfy) holds the shared values. `Option` stands for Python's `None` on ranks, files and
  statuses. `Outcome` is either a returned value or one of the exceptions (`Fault`) the code raises.
  `Location` is a (rank, file) pair. `Status` holds the notation constants and `Kind` the concrete piece classes.
  Colour is a `bool`, with white = true.
- `Pieces` (pieces.dfy) holds the class `Piece`. Its constructor picks the symbol that matches the colour.
  Its equality looks only at the concrete class and the colour.
- `Moves` (moves.dfy) holds the class `Move` and its partial-match equality. It also holds `SetLoc` (the
  source's `Piece.set_loc`), which writes a start square into each move of a list, in place. `SetLoc` lives
  here because `Move` refers to `Piece`, and Dafny modules cannot import each other in a cycle. The module
  also holds `Matches`, the match rule of `make_legal`, with its lemmas.
- `Converter` (converter.dfy) models the parser and the legalizer:
  - `Recognize` is the dispatch of `incomplete_alg` on the token's length and characters. It is stated on
    values and says which arm fires and which fields that arm sets.
  - `IncompleteAlg` builds the `Piece` and `Move` objects that `Recognize` describes. When the piece is
    `None`, it raises, as the `Move` constructor does.
  - `MakeLegal` is the linear scan for the first matching move. `ShortAlg` and `LongAlg` are the two
    entry points.
- `ConverterProperties` (converter_properties.dfy) states what each arm produces and which arms are dead.
  It also shows how rendering a move and reading it back with `long_alg` fit together.

Behaviours of the code that the model pins down:
- The length-4 branch has four arms inside the capture test. The last two, the promotion arm and the
  file-disambiguation arm, can never fire: they follow an `if`/`elif` on `isupper()` and its negation.
  `Recognize` keeps all four arms as written. So "e8=Q" is not recognized, and no token produces a
  PROMOTE move.
- `short_alg` fails with an AssertionError on an unrecognized token. It does not return `None`.
- `make_legal` compares promoted pieces by object identity. `incomplete_alg` always creates a new
  promoted piece. So a short-form token that names a promoted piece ("exd8=Q") never resolves.
  Provided the `.equals` call on promoted pieces returns, `ShortAlg` yields `None` for such a token
  whatever the move list holds.
- A capture such as "Axb3" has an upper-case letter that names no piece. It leaves the piece `None`, and
  the `Move` constructor then fails reading the piece's colour.
- The on-board guard of the `Move` constructor tests a bound method, which is always true. So the guard
  never rejects a move to the square (8, 8), read from "i9". The model assumes that building a
  `Location` never fails, so it builds that move.
- `long_alg` raises on fewer than four characters, on an empty start square, and on a fifth character
  other than Q, R, B or N. A token of six or more characters is read like four, and its extra characters
  are ignored: `long_alg` checks no length apart from fewer than four and exactly five.
- Move equality calls `.equals` on the promoted piece, which `Piece` does not define. The model takes
  that call as the parameter `equals`.
- A disambiguator that the candidate sets must be present on the list move with the same value. A list
  move whose start rank, start file or promoted piece is `None` never satisfies it.

The board is outside this model. Its list of legal moves (`moves`, or `legalMoves` by colour), its square
lookup (`pieceAt`) and the square parser `Location.init_alg` (`initAlg`) are parameters. So are the
renderings of squares and pieces (`squareStr`, `pieceStr`) and the white and black symbols of each piece
class (`glyphs`).

## Model

| member | source | states |
|---|---|---|
| `Pieces.Piece.constructor` | chess_py/pieces/piece.py:33-39 | stores colour and location; the symbol is the white symbol for white and the black symbol otherwise |
| `Pieces.Piece.Equals` | chess_py/pieces/piece.py:47-52 | true iff the other piece exists and has the same concrete class and colour; location and symbol are ignored |
| `Pieces.Piece.NotEquals` | chess_py/pieces/piece.py:54-55 | true iff the other piece is missing or differs in class or colour, which is exactly the negation of `Equals` |
| `Pieces.EqualsReflexive` | chess_py/pieces/piece.py:52 | every piece equals itself |
| `Pieces.EqualsSymmetric` | chess_py/pieces/piece.py:52 | piece equality is symmetric |
| `Pieces.EqualsIgnoresLocation` | chess_py/pieces/piece.py:47-52 | pieces of one class and colour on different squares are equal both ways |
| `Moves.Move.constructor` | chess_py/core/algebraic/move.py:19-42 | stores end square, piece, status and the three optional fields as given, and takes the colour from the piece; it has no precondition, because the on-board guard never fires |
| `Moves.Move.Equals` | chess_py/core/algebraic/move.py:50-80 | equal iff end square, piece (by piece equality) and status agree, the start rank and start file are not set on both sides with different values, and two set promoted pieces `.equals` each other |
| `Moves.Move.NotEquals` | chess_py/core/algebraic/move.py:82-83 | true iff some required field differs or two set optional fields conflict, the negation of `Equals` |
| `Moves.Move.OnBoard` | chess_py/core/algebraic/move.py:98-104 | true iff the end square has rank and file in 0..7 |
| `Moves.Move.WouldMoveBePromotion` | chess_py/core/algebraic/move.py:106-118 | true iff the move ends on the back rank of the other side (rank 7 for white, rank 0 for black) |
| `Moves.Move.ToString` | chess_py/core/algebraic/move.py:85-96 | with 2-character squares, the rendering is the start square, then the end square, then the promoted piece's text exactly when there is a promoted piece |
| `Moves.EqualsReflexive` | chess_py/core/algebraic/move.py:58-80 | a move equals itself when its promoted piece `.equals` itself |
| `Moves.EqualsSymmetric` | chess_py/core/algebraic/move.py:58-80 | move equality is symmetric when `.equals` is symmetric on the promoted pieces |
| `Moves.EqualsNotTransitive` | chess_py/core/algebraic/move.py:68-71 | start files 2, unset and 3 give moves a = b and b = c but a != c |
| `Moves.StartlessMoveEqualsResolved` | chess_py/core/algebraic/move.py:63-80 | a move with no start square and no promotion equals, both ways, any move with the same end square, piece and status |
| `Moves.SetLoc` | chess_py/pieces/piece.py:65-72 | every move of the list gets the piece's rank and file as start rank and start file; no other field of any move changes |
| `Moves.Matches` | chess_py/core/algebraic/converter.py:199-224 | a candidate matches only a list move with its end square; a START_LOC_SPECIFIED candidate also needs the same start rank and file, and any other candidate the same piece class, colour and status |
| `Moves.StartLocIgnoresRest` | chess_py/core/algebraic/converter.py:201-207 | a START_LOC_SPECIFIED candidate matches iff end square, start rank and start file are equal; list moves that agree on these match alike |
| `Moves.CastleMatchesIffEqual` | chess_py/core/algebraic/converter.py:209-213 | a castle candidate matches exactly the list moves it is equal to |
| `Moves.DisambiguatedMatchIff` | chess_py/core/algebraic/converter.py:209-224 | any other candidate matches iff end square, piece and status agree, each start coordinate it sets is equal on the list move, and a promoted piece it sets is the list move's very object |
| `Moves.UnsetOrOtherDisambiguatorRejected` | chess_py/core/algebraic/converter.py:215-222 | a set disambiguator rejects a list move whose field is None, and a promoted piece that is another object is rejected |
| `Converter.EdgeRank` | chess_py/core/algebraic/converter.py:37-40 | the back rank of a colour lies on the board and is the promotion rank (`FarRank`) of the other colour |
| `Converter.RankOf` | chess_py/core/algebraic/converter.py:42-48 | defined iff the character is a digit, and then the digit minus one, which lies in 0..7 iff the digit is 1 to 8 |
| `Converter.FileOf` | chess_py/core/algebraic/converter.py:50-56 | the file lies in 0..7 iff the letter is 'a' to 'h', and is negative iff the character comes before 'a' |
| `Converter.KindOf` | chess_py/core/algebraic/converter.py:58-81 | R, N, B, Q, K in either case map to Rook, Knight, Bishop, Queen, King; every other character gives no piece, and never a Pawn |
| `Converter.Recognize` | chess_py/core/algebraic/converter.py:83-186 | although the promotion arm is written out, no token reads as PROMOTE or START_LOC_SPECIFIED, and only a pawn MOVEMENT carries a promoted piece |
| `Converter.IncompleteAlg` | chess_py/core/algebraic/converter.py:22-186 | returns None, raises, or returns a new Move with new pieces exactly as the recognized arm describes; an arm with no piece raises at the Move constructor |
| `Converter.MakeLegal` | chess_py/core/algebraic/converter.py:189-226 | a None candidate raises; otherwise returns the first list move the candidate matches, or None when none matches |
| `Converter.MatchesBuiltCandidate` | chess_py/core/algebraic/converter.py:209-224 | for a parsed candidate whose promoted piece is not the list move's, the match rule is `ShapeMatches` on the recognized arm |
| `Converter.ShortAlg` | chess_py/core/algebraic/converter.py:229-246 | an unrecognized token raises the assertion error; otherwise the first list move matching the recognized arm, or None; a token with a promoted piece always gives None |
| `Converter.LongAlg` | chess_py/core/algebraic/converter.py:248-282 | raises on a short token, an empty start square or a bad fifth letter; otherwise returns the first move of the piece's side from the start square to the end square, or None |
| `ConverterProperties.CastleTokens` | chess_py/core/algebraic/converter.py:37-106 | "00" and "000" are king-side and queen-side castles of a King from (edge, 4) to (edge, 6) or (edge, 2), with the edge 0 for white and 7 for black |
| `ConverterProperties.PawnMove` | chess_py/core/algebraic/converter.py:109-112 | a 2-character token is a Pawn MOVEMENT to (digit - 1, letter - 'a') with no start square or promotion, or raises on a non-digit |
| `ConverterProperties.PieceMove` | chess_py/core/algebraic/converter.py:115-120 | a 3-character token is a MOVEMENT of the lettered piece, and is unrecognized when the letter names no piece; a non-digit last character raises |
| `ConverterProperties.PawnCapture` | chess_py/core/algebraic/converter.py:126-137 | "exd5" with a non-upper-case first character is a Pawn CAPTURE whose start file comes from that character, or raises on a non-digit last character |
| `ConverterProperties.PieceCapture` | chess_py/core/algebraic/converter.py:139-143 | "Qxf3" is a CAPTURE of the lettered piece with no start square; an upper-case non-piece letter leaves the piece unset; a non-digit last character raises |
| `ConverterProperties.NonCaptureLength4Unrecognized` | chess_py/core/algebraic/converter.py:123-159 | every 4-character token without 'x' or 'X' in second place is unrecognized |
| `ConverterProperties.DeadLength4Arms` | chess_py/core/algebraic/converter.py:123-159 | a 4-character token with a capture mark is a CAPTURE without promotion or raises; "e8=Q" and "bNd2", written for the last two arms, are unrecognized |
| `ConverterProperties.NoArmPromotes` | chess_py/core/algebraic/converter.py:145-151 | no token yields PROMOTE, and only 6-character tokens set a promoted piece |
| `ConverterProperties.FullyDisambiguatedMove` | chess_py/core/algebraic/converter.py:162-171 | a 5-character token with an upper-case third character is a piece MOVEMENT with start file and start rank, raising when the fifth or second character is not a digit; every other one is unrecognized |
| `ConverterProperties.PromotionCapture` | chess_py/core/algebraic/converter.py:173-183 | a 6-character token is a Pawn MOVEMENT with start file and promoted piece from the last letter, possibly unset, or raises when the fourth character is not a digit |
| `ConverterProperties.Length6IgnoresSecondAndFifth` | chess_py/core/algebraic/converter.py:173-183 | two 6-character tokens that differ only in characters 1 and 4 read the same |
| `ConverterProperties.OtherLengthsUnrecognized` | chess_py/core/algebraic/converter.py:185-186 | tokens of length 0, 1, or 7 and more are unrecognized |
| `ConverterProperties.OffBoardTokenStillBuilds` | chess_py/core/algebraic/move.py:30-42 | "i9" builds a pawn move to (8, 8), a square off the board |
| `ConverterProperties.E4ResolvesToExpected` | tests/testConverter.py:9-15 | any move "e4" resolves to for white equals the start-less expected pawn move to (3, 4) |
| `ConverterProperties.LongAlgOfRendering` | chess_py/core/algebraic/converter.py:256-282 | reading a listed move's rendering back with long_alg returns a move with the same start and end squares |

## Left out

- The `.equals` call that move equality makes on promoted pieces is assumed to return. `Piece` defines no such method, so the source may raise AttributeError there. `Moves.Move.Equals`, `Converter.MakeLegal` and `Converter.ShortAlg` do not model that failure.
- Building a `Location` is assumed never to fail. That class is not part of this model, so it is unknown whether it rejects a square such as (8, 8).
- Comparing a Move with a value of another type raises TypeError in the source. Dafny's types rule such a comparison out, so that path is not modelled.
- `__hash__` of both classes is left out. It yields hash values only, and those are inconsistent with `__eq__`.
- chess_py/game/game_state.py (`no_moves`, `is_checkmate`) is left out. It consists of two one-line predicates over the board.
- Board, Location, Color and the concrete piece classes are not part of this model. Their operations are parameters, as listed above.
- `Location.on_board` is taken to be the 8x8 range, rank and file in 0..7.
- The model treats input as ASCII. `isupper()`, `upper()` and `int()` on non-ASCII letters and digits are not modelled.
- `make_legal` compares start rank and start file with `is not`. The model compares them by value. This agrees with CPython for the small integers that ranks and files are.
- In the length-3 arm, `set_piece` runs twice and the first piece is discarded. The model creates one piece, and nothing can observe the difference.
- The exception when `Location.init_alg` fails on a bad square is not modelled. That parser is a total parameter here.
- `Piece.__str__` and `possible_moves` are abstract in the source and are not modelled.

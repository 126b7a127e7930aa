/** Pieces, colours, squares and moves of the engine (engine-cpp/include/Board.h),
    and the coordinate notation moves are printed in (`Move::toString`). */
module ChessTypes {
  import opened CText

  datatype PieceType = Empty | Pawn | Knight | Bishop | Rook | Queen | King

  /** `NoColor` is the enum's `NONE`, the colour of an empty square. */
  datatype Color = White | Black | NoColor

  datatype Piece = Piece(kind: PieceType, color: Color)

  /** What the default constructor `Piece()` builds: an empty square. */
  const NoPiece: Piece := Piece(Empty, NoColor)

  /** Squares are numbered a1 = 0, b1 = 1, ..., h8 = 63: file `sq % 8`,
      rank `sq / 8`. `SqNone` is the "no square" value. */
  const SqNone: int := 64

  predicate OnBoardSquare(sq: int) { 0 <= sq < 64 }

  const A1: int := 0
  const B1: int := 1
  const C1: int := 2
  const D1: int := 3
  const E1: int := 4
  const F1: int := 5
  const G1: int := 6
  const H1: int := 7
  const A8: int := 56
  const B8: int := 57
  const C8: int := 58
  const D8: int := 59
  const E8: int := 60
  const F8: int := 61
  const G8: int := 62
  const H8: int := 63

  /** The standard starting position in Forsyth-Edwards Notation. */
  const StartFen: string := "rnbqkbnr/pppppppp/8/8/8/8/PPPPPPPP/RNBQKBNR w KQkq - 0 1"

  /** The side that is not `us`; note that the opponent of `NoColor` is
      White, as in the engine's `(us == WHITE) ? BLACK : WHITE`. */
  function Opponent(us: Color): Color {
    if us == White then Black else White
  }

  datatype Move = Move(from: int, to: int, promotion: PieceType)

  /** The default constructor `Move()`. */
  const NullMove: Move := Move(SqNone, SqNone, Empty)

  /** The two-argument constructor `Move(f, t)`: no promotion. */
  function QuietMove(f: int, t: int): Move {
    Move(f, t, Empty)
  }

  /** `Move::operator==`, field by field. */
  predicate SameMove(a: Move, b: Move) {
    a.from == b.from && a.to == b.to && a.promotion == b.promotion
  }

  /** `operator==` on moves is exactly equality of the three fields, so
      two moves compare equal iff they are the same value. */
  lemma SameMoveIsEquality(a: Move, b: Move)
    ensures SameMove(a, b) <==> a == b
    ensures SameMove(QuietMove(a.from, a.to), a) <==> a.promotion == Empty
  {
  }

  // ---------------------------------------------------------------------
  // Coordinate notation
  // ---------------------------------------------------------------------

  /** The two characters `'a' + sq % 8` and `'1' + sq / 8`, computed with
      C++ arithmetic and narrowed to `char`. */
  function SquareText(sq: int): (s: string)
    ensures |s| == 2
    ensures OnBoardSquare(sq) ==>
      'a' <= s[0] <= 'h' && '1' <= s[1] <= '8' &&
      (s[1] as int - '1' as int) * 8 + (s[0] as int - 'a' as int) == sq
  {
    [ByteChar('a' as int + CppRem(sq, 8)), ByteChar('1' as int + CppDiv(sq, 8))]
  }

  /** The letter `toString` appends for a promotion, if any: only the four
      pieces a pawn may become have one. */
  function PromotionSuffix(p: PieceType): (s: string)
    ensures |s| <= 1
    ensures |s| == 1 <==> p in {Queen, Rook, Bishop, Knight}
    ensures p == Queen ==> s == "q"
    ensures p == Rook ==> s == "r"
    ensures p == Bishop ==> s == "b"
    ensures p == Knight ==> s == "n"
  {
    match p
    case Queen => "q"
    case Rook => "r"
    case Bishop => "b"
    case Knight => "n"
    case _ => ""
  }

  /** `Move::toString`: "none" when either end is `SqNone`, otherwise the
      two squares followed by the promotion letter. */
  function MoveToString(m: Move): (s: string)
    ensures s == "none" <==> m.from == SqNone || m.to == SqNone
    ensures m.from != SqNone && m.to != SqNone ==>
      && |s| == 4 + |PromotionSuffix(m.promotion)|
      && s[..2] == SquareText(m.from)
      && s[2..4] == SquareText(m.to)
      && s[4..] == PromotionSuffix(m.promotion)
      && (|s| == 5 ==> s[4] in "qrbn")
  {
    if m.from == SqNone || m.to == SqNone then "none"
    else
      var s := SquareText(m.from) + SquareText(m.to) + PromotionSuffix(m.promotion);
      assert s[0] != 'n' by {
        assert 'a' as int - 7 <= s[0] as int <= 'a' as int + 7;
      }
      s
  }

  /** The default move prints as "none"; a move built from two squares
      prints as exactly four characters. */
  lemma NullAndQuietMoveText(f: int, t: int)
    requires OnBoardSquare(f) && OnBoardSquare(t)
    ensures MoveToString(NullMove) == "none"
    ensures |MoveToString(QuietMove(f, t))| == 4
  {
  }
}

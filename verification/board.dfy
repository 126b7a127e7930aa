/** The engine's board (engine-cpp/include/Board.h, engine-cpp/src/Board.cpp):
    64 squares and the state flags, `clear()` and `makeMove`. */
module Boards {
  import opened CText
  import opened ChessTypes

  /** The 64-square array `squares[64]`. */
  type Grid = g: seq<Piece> | |g| == 64
    witness Blank(64)

  /** `n` empty squares. */
  function Blank(n: nat): (s: seq<Piece>)
    ensures |s| == n && forall i :: 0 <= i < n ==> s[i] == NoPiece
  {
    if n == 0 then [] else Blank(n - 1) + [NoPiece]
  }

  /** Every square `Piece()`, as `clear()` leaves the array. */
  const EmptyGrid: Grid := Blank(64)

  datatype Board = Board(
    squares: Grid,
    turn: Color,
    castleWK: bool,
    castleWQ: bool,
    castleBK: bool,
    castleBQ: bool,
    epSquare: int,
    halfMoveClock: int,
    fullMoveNumber: int)

  predicate AnyCastling(b: Board) {
    b.castleWK || b.castleWQ || b.castleBK || b.castleBQ
  }

  /** Every empty square is `Piece()` and every occupied one belongs to a
      side: the squares a board's FEN text can describe. */
  predicate WellFormedGrid(g: Grid) {
    forall sq :: 0 <= sq < 64 ==>
      if g[sq].kind == Empty then g[sq] == NoPiece else g[sq].color in {White, Black}
  }

  /** A board that FEN text can describe exactly: a well-formed grid, a
      side to move, an en-passant square on the board or none, and
      counters that fit an `int`. */
  predicate WellFormed(b: Board) {
    && WellFormedGrid(b.squares)
    && b.turn in {White, Black}
    && (b.epSquare == SqNone || OnBoardSquare(b.epSquare))
    && 0 <= b.halfMoveClock <= IntMax
    && 0 <= b.fullMoveNumber <= IntMax
  }

  /** `Board::clear()`: the state every parse starts from. */
  function Clear(): (b: Board)
    ensures WellFormed(b)
    ensures forall sq :: 0 <= sq < 64 ==> b.squares[sq].kind == Empty
    ensures b.turn == White && !AnyCastling(b) && b.epSquare == SqNone
    ensures b.halfMoveClock == 0 && b.fullMoveNumber == 1
  {
    Board(EmptyGrid, White, false, false, false, false, SqNone, 0, 1)
  }

  // ---------------------------------------------------------------------
  // makeMove
  // ---------------------------------------------------------------------

  /** The mover is a pawn landing on the en-passant square. */
  predicate IsEnPassant(b: Board, m: Move)
    requires OnBoardSquare(m.from)
  {
    b.squares[m.from].kind == Pawn && m.to == b.epSquare
  }

  /** The square of the pawn an en-passant capture removes: behind the
      target from the mover's point of view. */
  function EnPassantVictim(b: Board, m: Move): int {
    if b.turn == White then m.to - 8 else m.to + 8
  }

  /** The square whose occupant the move captures. */
  function CaptureSquare(b: Board, m: Move): int
    requires OnBoardSquare(m.from)
  {
    if IsEnPassant(b, m) then EnPassantVictim(b, m) else m.to
  }

  /** What `makeMove` needs to index its array: both ends on the board,
      and so is the pawn an en-passant capture removes. */
  predicate CanApply(b: Board, m: Move) {
    && OnBoardSquare(m.from)
    && OnBoardSquare(m.to)
    && OnBoardSquare(CaptureSquare(b, m))
  }

  predicate IsKingCastle(p: Piece, m: Move) {
    p.kind == King && ((m.from == E1 && m.to in {G1, C1}) || (m.from == E8 && m.to in {G8, C8}))
  }

  /** The rook a castling king move relocates: from its corner to the
      square the king passes. */
  function RookFrom(m: Move): int {
    if m.to == G1 then H1 else if m.to == C1 then A1 else if m.to == G8 then H8 else A8
  }

  function RookTo(m: Move): int {
    if m.to == G1 then F1 else if m.to == C1 then D1 else if m.to == G8 then F8 else D8
  }

  /** The squares a move may change. */
  function Touched(b: Board, m: Move): set<int>
    requires OnBoardSquare(m.from)
  {
    {m.from, m.to, CaptureSquare(b, m)} +
    (if IsKingCastle(b.squares[m.from], m) then {RookFrom(m), RookTo(m)} else {})
  }

  /** The array after the en-passant victim is taken off: this happens
      before anything else moves. */
  function RemoveVictim(b: Board, m: Move): (g: Grid)
    requires CanApply(b, m)
    ensures IsEnPassant(b, m) ==> g == b.squares[CaptureSquare(b, m) := NoPiece]
    ensures !IsEnPassant(b, m) ==> g == b.squares
  {
    if IsEnPassant(b, m) then b.squares[CaptureSquare(b, m) := NoPiece] else b.squares
  }

  /** The rook relocation of a castling king move. */
  function MoveCastlingRook(g: Grid, p: Piece, m: Move): (g': Grid)
    ensures IsKingCastle(p, m) ==>
      g' == g[RookTo(m) := g[RookFrom(m)]][RookFrom(m) := NoPiece]
    ensures !IsKingCastle(p, m) ==> g' == g
  {
    if p.kind != King then g
    else if m.from == E1 then
      if m.to == G1 then g[F1 := g[H1]][H1 := NoPiece]
      else if m.to == C1 then g[D1 := g[A1]][A1 := NoPiece]
      else g
    else if m.from == E8 then
      if m.to == G8 then g[F8 := g[H8]][H8 := NoPiece]
      else if m.to == C8 then g[D8 := g[A8]][A8 := NoPiece]
      else g
    else g
  }

  /** The mover lands on the target (its type replaced by a promotion) and
      its square is emptied. */
  function PlaceMover(g: Grid, p: Piece, m: Move): (g': Grid)
    requires OnBoardSquare(m.from) && OnBoardSquare(m.to)
    ensures m.from != m.to ==> g' == g[m.to := Promoted(p, m.promotion)][m.from := NoPiece]
    ensures m.from == m.to ==> g' == g[m.to := Promoted(NoPiece, m.promotion)]
  {
    var g5 := g[m.to := p][m.from := NoPiece];
    if m.promotion != Empty then g5[m.to := Piece(m.promotion, g5[m.to].color)] else g5
  }

  /** The piece that ends on the target: the mover, with its type replaced
      when the move names a promotion. */
  function Promoted(p: Piece, promotion: PieceType): Piece {
    if promotion != Empty then Piece(promotion, p.color) else p
  }

  /** The castling flags after the move: a rook captured on its corner,
      a king leaving e1/e8 and any piece leaving a corner each revoke. */
  function RevokeRights(b: Board, p: Piece, captured: Piece, m: Move): (r: Board)
    ensures r == b.(castleWK := r.castleWK, castleWQ := r.castleWQ,
                    castleBK := r.castleBK, castleBQ := r.castleBQ)
    ensures r.castleWK == (b.castleWK && m.from != H1
                           && !(p.kind == King && m.from == E1)
                           && !(captured == Piece(Rook, White) && m.to == H1))
    ensures r.castleWQ == (b.castleWQ && m.from != A1
                           && !(p.kind == King && m.from == E1)
                           && !(captured == Piece(Rook, White) && m.to == A1))
    ensures r.castleBK == (b.castleBK && m.from != H8
                           && !(p.kind == King && m.from == E8)
                           && !(captured.kind == Rook && captured.color != White && m.to == H8))
    ensures r.castleBQ == (b.castleBQ && m.from != A8
                           && !(p.kind == King && m.from == E8)
                           && !(captured.kind == Rook && captured.color != White && m.to == A8))
  {
    // A captured rook; note that a colourless one counts as Black's.
    var b2 :=
      if captured.kind != Rook then b
      else if captured.color == White then
        b.(castleWQ := b.castleWQ && m.to != A1, castleWK := b.castleWK && m.to != H1)
      else
        b.(castleBQ := b.castleBQ && m.to != A8, castleBK := b.castleBK && m.to != H8);
    // The king leaves its home square.
    var b3 :=
      if p.kind != King then b2
      else if m.from == E1 then b2.(castleWK := false, castleWQ := false)
      else if m.from == E8 then b2.(castleBK := false, castleBQ := false)
      else b2;
    // A piece leaves a corner.
    b3.(castleWQ := b3.castleWQ && m.from != A1,
        castleWK := b3.castleWK && m.from != H1,
        castleBQ := b3.castleBQ && m.from != A8,
        castleBK := b3.castleBK && m.from != H8)
  }

  /** The en-passant square after a move: the square a pawn skipped. */
  function SkippedSquare(p: Piece, m: Move): (ep: int)
    requires OnBoardSquare(m.from) && OnBoardSquare(m.to)
    ensures ep != SqNone <==> p.kind == Pawn && (m.to == m.from + 16 || m.from == m.to + 16)
    ensures ep != SqNone ==>
      OnBoardSquare(ep) && ep % 8 == m.from % 8 && ep + ep == m.from + m.to
  {
    if p.kind == Pawn && (m.to - m.from == 16 || m.from - m.to == 16) then (m.from + m.to) / 2
    else SqNone
  }

  /** The array after `makeMove`: the en-passant victim taken off, the
      castling rook moved, then the mover placed. */
  function MovedGrid(b: Board, m: Move): (g: Grid)
    requires CanApply(b, m)
    // The mover lands on the target, promoted when asked, and leaves its square.
    ensures m.from != m.to ==> g[m.from] == NoPiece
    ensures m.from != m.to ==> g[m.to] == Promoted(b.squares[m.from], m.promotion)
    // A null move (from == to) clears the square after placing the mover on it.
    ensures m.from == m.to ==> g[m.to] == Promoted(NoPiece, m.promotion)
    // An en-passant capture removes the pawn behind the target.
    ensures IsEnPassant(b, m) && CaptureSquare(b, m) != m.from && CaptureSquare(b, m) != m.to
      ==> g[CaptureSquare(b, m)] == NoPiece
    // Castling relocates the corner rook next to the king.
    ensures IsKingCastle(b.squares[m.from], m) ==>
      g[RookTo(m)] == b.squares[RookFrom(m)] && g[RookFrom(m)] == NoPiece
    // Nothing else on the board changes.
    ensures forall sq :: 0 <= sq < 64 && sq !in Touched(b, m) ==> g[sq] == b.squares[sq]
  {
    var p := b.squares[m.from];
    var g1 := RemoveVictim(b, m);
    var g2 := MoveCastlingRook(g1, p, m);
    assert IsKingCastle(p, m) ==> g1 == b.squares;
    PlaceMover(g2, p, m)
  }

  /** `Board::makeMove`, step by step as the engine performs it. The move
      is not checked for legality. */
  function MakeMove(b: Board, m: Move): (r: Board)
    requires CanApply(b, m)
    // The mover lands on the target, promoted when asked, and leaves its square.
    ensures m.from != m.to ==> r.squares[m.from] == NoPiece
    ensures m.from != m.to ==> r.squares[m.to] == Promoted(b.squares[m.from], m.promotion)
    // A null move (from == to) clears the square after placing the mover on it.
    ensures m.from == m.to ==> r.squares[m.to] == Promoted(NoPiece, m.promotion)
    // An en-passant capture removes the pawn behind the target.
    ensures IsEnPassant(b, m) && CaptureSquare(b, m) != m.from && CaptureSquare(b, m) != m.to
      ==> r.squares[CaptureSquare(b, m)] == NoPiece
    // Castling relocates the corner rook next to the king.
    ensures IsKingCastle(b.squares[m.from], m) ==>
      r.squares[RookTo(m)] == b.squares[RookFrom(m)] && r.squares[RookFrom(m)] == NoPiece
    // Nothing else on the board changes.
    ensures forall sq :: 0 <= sq < 64 && sq !in Touched(b, m) ==> r.squares[sq] == b.squares[sq]
  {
    var p := b.squares[m.from];
    var captured := b.squares[CaptureSquare(b, m)];
    var half := if p.kind == Pawn || captured.kind != Empty then 0 else b.halfMoveClock + 1;
    var full := if b.turn == Black then b.fullMoveNumber + 1 else b.fullMoveNumber;
    RevokeRights(b, p, captured, m).(
      squares := MovedGrid(b, m),
      epSquare := SkippedSquare(p, m),
      halfMoveClock := half,
      fullMoveNumber := full,
      turn := Opponent(b.turn))
  }

  /** What `makeMove` does to the side to move, the clocks and the
      en-passant square. */
  lemma MakeMoveClocks(b: Board, m: Move)
    requires CanApply(b, m)
    // Side to move and move number.
    ensures MakeMove(b, m).turn == Opponent(b.turn)
    ensures MakeMove(b, m).fullMoveNumber == if b.turn == Black then b.fullMoveNumber + 1 else b.fullMoveNumber
    // Fifty-move counter: reset by a pawn move or any capture.
    ensures MakeMove(b, m).halfMoveClock ==
      if b.squares[m.from].kind == Pawn || b.squares[CaptureSquare(b, m)].kind != Empty then 0
      else b.halfMoveClock + 1
    // En-passant square: the midpoint of a two-rank pawn push, else none.
    ensures MakeMove(b, m).epSquare != SqNone <==>
      b.squares[m.from].kind == Pawn && (m.to == m.from + 16 || m.from == m.to + 16)
    ensures MakeMove(b, m).epSquare != SqNone ==>
      OnBoardSquare(MakeMove(b, m).epSquare) && MakeMove(b, m).epSquare % 8 == m.from % 8 && MakeMove(b, m).epSquare + MakeMove(b, m).epSquare == m.from + m.to
  {
  }

  /** What `makeMove` does to the castling flags: it only ever clears them. */
  lemma MakeMoveCastlingRights(b: Board, m: Move)
    requires CanApply(b, m)
    ensures (MakeMove(b, m).castleWK ==> b.castleWK) && (MakeMove(b, m).castleWQ ==> b.castleWQ)
    ensures (MakeMove(b, m).castleBK ==> b.castleBK) && (MakeMove(b, m).castleBQ ==> b.castleBQ)
    ensures b.squares[m.from].kind == King && m.from == E1 ==> !MakeMove(b, m).castleWK && !MakeMove(b, m).castleWQ
    ensures b.squares[m.from].kind == King && m.from == E8 ==> !MakeMove(b, m).castleBK && !MakeMove(b, m).castleBQ
    ensures m.from == A1 || (m.to == A1 && b.squares[CaptureSquare(b, m)] == Piece(Rook, White)) ==> !MakeMove(b, m).castleWQ
    ensures m.from == H1 || (m.to == H1 && b.squares[CaptureSquare(b, m)] == Piece(Rook, White)) ==> !MakeMove(b, m).castleWK
    ensures m.from == A8 || (m.to == A8 && b.squares[CaptureSquare(b, m)] == Piece(Rook, Black)) ==> !MakeMove(b, m).castleBQ
    ensures m.from == H8 || (m.to == H8 && b.squares[CaptureSquare(b, m)] == Piece(Rook, Black)) ==> !MakeMove(b, m).castleBK
  {
  }

  /** A legal-looking move (the side to move's piece going to another
      square, with room left in the counters) keeps the board describable
      by FEN text. */
  lemma MakeMovePreservesWellFormed(b: Board, m: Move)
    requires WellFormed(b) && CanApply(b, m)
    requires b.squares[m.from].color == b.turn && m.from != m.to
    requires b.halfMoveClock < IntMax && b.fullMoveNumber < IntMax
    ensures WellFormed(MakeMove(b, m))
  {
    var r := MakeMove(b, m);
    forall sq | 0 <= sq < 64
      ensures if r.squares[sq].kind == Empty then r.squares[sq] == NoPiece
              else r.squares[sq].color in {White, Black}
    {
      if sq == m.to {
      } else if sq == m.from {
      } else if sq !in Touched(b, m) {
      } else if sq == CaptureSquare(b, m) && IsEnPassant(b, m) {
      } else {
        assert IsKingCastle(b.squares[m.from], m) && sq in {RookFrom(m), RookTo(m)};
      }
    }
  }
}

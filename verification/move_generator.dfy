/** Pseudo-legal move generation and attack detection
    (engine-cpp/src/MoveGenerator.cpp). Rows and columns are `sq / 8` and
    `sq % 8`; a move list is built piece by piece in square order. */
module MoveGenerator {
  import opened CText
  import opened ChessTypes
  import opened Boards

  // ---------------------------------------------------------------------
  // Geometry
  // ---------------------------------------------------------------------

  /** `onBoard(r, c)`. */
  predicate OnBoard(r: int, c: int) { 0 <= r < 8 && 0 <= c < 8 }

  function Index(r: int, c: int): int { 8 * r + c }

  /** `onBoard` is exactly the condition under which (r, c) names a
      square of the 64-entry array whose row and column are r and c. */
  lemma OnBoardIndex(r: int, c: int)
    ensures OnBoard(r, c) <==>
      OnBoardSquare(Index(r, c)) && Index(r, c) / 8 == r && Index(r, c) % 8 == c
  {
    if OnBoardSquare(Index(r, c)) && Index(r, c) / 8 == r && Index(r, c) % 8 == c {
      assert 0 <= c < 8;
    }
  }

  lemma SquareRowColumn(sq: int)
    requires OnBoardSquare(sq)
    ensures OnBoard(sq / 8, sq % 8) && Index(sq / 8, sq % 8) == sq
  {
  }

  function At(b: Board, r: int, c: int): Piece
    requires OnBoard(r, c)
  {
    b.squares[Index(r, c)]
  }

  datatype Pos = Pos(r: int, c: int)

  datatype Offset = Offset(dr: int, dc: int)

  predicate OnBoardAt(p: Pos) { OnBoard(p.r, p.c) }

  function PieceOn(b: Board, p: Pos): Piece
    requires OnBoardAt(p)
  {
    At(b, p.r, p.c)
  }

  function SquareOf(p: Pos): int { Index(p.r, p.c) }

  function Step(p: Pos, d: Offset): Pos { Pos(p.r + d.dr, p.c + d.dc) }

  /** The position `j` steps from `p` in direction `d`. */
  function Walk(p: Pos, d: Offset, j: nat): Pos
    decreases j
  {
    if j == 0 then p else Walk(Step(p, d), d, j - 1)
  }

  /** One of the eight king-step directions. */
  predicate IsDirection(d: Offset) {
    -1 <= d.dr <= 1 && -1 <= d.dc <= 1 && (d.dr != 0 || d.dc != 0)
  }

  /** A bound on the steps a walk in direction `d` can still take on the
      board; each step from an on-board position lowers it. */
  function Reach(p: Pos, d: Offset): int {
    (if d.dr > 0 then 8 - p.r else if d.dr < 0 then p.r + 1 else 0) +
    (if d.dc > 0 then 8 - p.c else if d.dc < 0 then p.c + 1 else 0)
  }

  const KnightOffsets: seq<Offset> :=
    [Offset(2, 1), Offset(2, -1), Offset(1, 2), Offset(1, -2),
     Offset(-1, 2), Offset(-1, -2), Offset(-2, 1), Offset(-2, -1)]

  const KingOffsets: seq<Offset> :=
    [Offset(1, 1), Offset(1, 0), Offset(1, -1), Offset(0, 1),
     Offset(0, -1), Offset(-1, 1), Offset(-1, 0), Offset(-1, -1)]

  const RookDirections: seq<Offset> := [Offset(1, 0), Offset(-1, 0), Offset(0, 1), Offset(0, -1)]

  const BishopDirections: seq<Offset> := [Offset(1, 1), Offset(1, -1), Offset(-1, 1), Offset(-1, -1)]

  /** The queen's eight directions: the rook's four, then the bishop's. */
  const QueenDirections: seq<Offset> := RookDirections + BishopDirections

  predicate AllDirections(ds: seq<Offset>) {
    forall i :: 0 <= i < |ds| ==> IsDirection(ds[i])
  }

  lemma QueenDirectionsAreDirections()
    ensures AllDirections(RookDirections) && AllDirections(BishopDirections)
    ensures |QueenDirections| == 8 && AllDirections(QueenDirections)
  {
  }

  // ---------------------------------------------------------------------
  // What a generated move satisfies
  // ---------------------------------------------------------------------

  /** An occupied square of side `us`. */
  predicate Friendly(p: Piece, us: Color) { p.kind != Empty && p.color == us }

  /** The four castling moves, as `Move(E1, G1)` etc.: White's when `us`
      is White, Black's otherwise. */
  predicate IsCastlingMove(us: Color, m: Move) {
    if us == White then m == QuietMove(E1, G1) || m == QuietMove(E1, C1)
    else m == QuietMove(E8, G8) || m == QuietMove(E8, C8)
  }

  /** The first or last row. */
  predicate PromotionRank(to: int) { 0 <= to < 8 || 56 <= to < 64 }

  predicate IsPromotionPiece(k: PieceType) { k in {Queen, Rook, Bishop, Knight} }

  /** A two-row pawn advance from its starting row (the second for White,
      the seventh for Black) over an empty square onto an empty square. */
  predicate DoublePush(b: Board, from: int, to: int)
    requires OnBoardSquare(from) && OnBoardSquare(to)
  {
    || (b.turn == White && 8 <= from < 16 && to == from + 16 &&
        b.squares[from + 8].kind == Empty && b.squares[to].kind == Empty)
    || (b.turn == Black && 48 <= from < 56 && to == from - 16 &&
        b.squares[from - 8].kind == Empty && b.squares[to].kind == Empty)
  }

  /** The safety properties every generated move has. */
  predicate MoveOk(b: Board, m: Move) {
    && OnBoardSquare(m.from) && OnBoardSquare(m.to)
    // starts on a piece of the side to move, unless it is a castling move
    && (Friendly(b.squares[m.from], b.turn) || IsCastlingMove(b.turn, m))
    // never lands on a piece of the side to move, except on the en-passant square
    && (!Friendly(b.squares[m.to], b.turn) || m.to == b.epSquare)
    // a promotion is made only by a pawn reaching the first or last row
    && (m.promotion != Empty ==>
          b.squares[m.from].kind == Pawn && IsPromotionPiece(m.promotion) && PromotionRank(m.to))
    // a pawn reaching those rows promotes, except by an en-passant capture
    && ((b.squares[m.from].kind == Pawn && !IsCastlingMove(b.turn, m) &&
         PromotionRank(m.to) && m.to != b.epSquare) ==> m.promotion != Empty)
    // a pawn moves two rows only as a double push
    && ((b.squares[m.from].kind == Pawn && !IsCastlingMove(b.turn, m) &&
         (m.to == m.from + 16 || m.from == m.to + 16)) ==> DoublePush(b, m.from, m.to))
  }

  predicate AllOk(b: Board, ms: seq<Move>) {
    forall m :: m in ms ==> MoveOk(b, m)
  }

  function Promotions(from: int, to: int): seq<Move> {
    [Move(from, to, Queen), Move(from, to, Rook), Move(from, to, Bishop), Move(from, to, Knight)]
  }

  /** The list splits into single moves without promotion and blocks of
      the four promotions of one from/to pair, in the order queen, rook,
      bishop, knight. */
  predicate PromotionsGrouped(ms: seq<Move>)
    decreases |ms|
  {
    if |ms| == 0 then true
    else if ms[0].promotion == Empty then PromotionsGrouped(ms[1..])
    else |ms| >= 4 && ms[..4] == Promotions(ms[0].from, ms[0].to) && PromotionsGrouped(ms[4..])
  }

  lemma {:induction false} PromotionsGroupedAppend(a: seq<Move>, b: seq<Move>)
    requires PromotionsGrouped(a) && PromotionsGrouped(b)
    ensures PromotionsGrouped(a + b)
    decreases |a|
  {
    if |a| == 0 {
      assert a + b == b;
    } else if a[0].promotion == Empty {
      assert (a + b)[1..] == a[1..] + b;
      PromotionsGroupedAppend(a[1..], b);
    } else {
      assert (a + b)[..4] == a[..4];
      assert (a + b)[4..] == a[4..] + b;
      PromotionsGroupedAppend(a[4..], b);
    }
  }

  lemma PromotionsAreGrouped(from: int, to: int)
    ensures PromotionsGrouped(Promotions(from, to))
  {
    var ps := Promotions(from, to);
    assert ps[..4] == ps && ps[4..] == [];
  }

  lemma {:induction false} NoPromotionsAreGrouped(ms: seq<Move>)
    requires forall m :: m in ms ==> m.promotion == Empty
    ensures PromotionsGrouped(ms)
    decreases |ms|
  {
    if |ms| > 0 {
      assert ms[0] in ms;
      assert forall m :: m in ms[1..] ==> m in ms;
      NoPromotionsAreGrouped(ms[1..]);
    }
  }

  // ---------------------------------------------------------------------
  // Pawns
  // ---------------------------------------------------------------------

  function PawnDirection(us: Color): int {
    if us == White then 1 else -1
  }

  /** A pawn step onto (r, c): the four promotions on the first or last
      row, a plain move elsewhere. */
  function PawnStep(sq: int, r: int, c: int): (ms: seq<Move>)
    requires OnBoard(r, c)
    ensures forall m :: m in ms ==> m.from == sq && m.to == Index(r, c)
    ensures forall m :: m in ms ==> (m.promotion != Empty <==> PromotionRank(Index(r, c)))
    ensures forall m :: m in ms ==> m.promotion == Empty || IsPromotionPiece(m.promotion)
    ensures PromotionsGrouped(ms)
    ensures |ms| == if PromotionRank(Index(r, c)) then 4 else 1
  {
    if r == 0 || r == 7 then
      PromotionsAreGrouped(sq, Index(r, c));
      Promotions(sq, Index(r, c))
    else
      NoPromotionsAreGrouped([QuietMove(sq, Index(r, c))]);
      [QuietMove(sq, Index(r, c))]
  }

  /** The second-row advance from the starting row, when that square is
      empty too. */
  function PawnDoubleStep(b: Board, sq: int): (ms: seq<Move>)
    requires OnBoardSquare(sq) && OnBoardSquare(sq + 8 * PawnDirection(b.turn))
    requires b.squares[sq + 8 * PawnDirection(b.turn)].kind == Empty
    ensures forall m :: m in ms ==>
      && m.from == sq && m.promotion == Empty && OnBoardSquare(m.to)
      && !PromotionRank(m.to) && DoublePush(b, sq, m.to)
  {
    var dir := PawnDirection(b.turn);
    if ((b.turn == White && sq / 8 == 1) || (b.turn == Black && sq / 8 == 6)) &&
       b.squares[sq + 16 * dir].kind == Empty
    then [QuietMove(sq, sq + 16 * dir)]
    else []
  }

  /** The pawn's pushes: one row forward onto an empty square, and from
      the starting row a second. */
  function PawnPushes(b: Board, sq: int): (ms: seq<Move>)
    requires OnBoardSquare(sq)
    ensures forall m :: m in ms ==> m.from == sq && OnBoardSquare(m.to) && b.squares[m.to].kind == Empty
    ensures forall m :: m in ms ==> m.promotion == Empty || (IsPromotionPiece(m.promotion) && PromotionRank(m.to))
    ensures forall m :: m in ms ==> (PromotionRank(m.to) ==> m.promotion != Empty)
    ensures forall m :: m in ms ==> (m.to == sq + 16 || sq == m.to + 16 ==> DoublePush(b, sq, m.to))
    ensures PromotionsGrouped(ms)
  {
    var r := sq / 8;
    var c := sq % 8;
    var nr := r + PawnDirection(b.turn);
    SquareRowColumn(sq);
    if OnBoard(nr, c) && At(b, nr, c).kind == Empty then
      assert Index(nr, c) == sq + 8 * PawnDirection(b.turn);
      var single := PawnStep(sq, nr, c);
      if nr == 0 || nr == 7 then single
      else
        var double := PawnDoubleStep(b, sq);
        NoPromotionsAreGrouped(double);
        PromotionsGroupedAppend(single, double);
        single + double
    else
      []
  }

  /** A diagonal step of the pawn onto (nr, nc): a capture of an enemy
      piece (as four promotions on the first or last row), or a move onto
      the en-passant square. */
  function PawnCapture(b: Board, sq: int, nr: int, nc: int): (ms: seq<Move>)
    requires OnBoardSquare(sq)
    requires Index(nr, nc) == sq + 8 * PawnDirection(b.turn) - 1 || Index(nr, nc) == sq + 8 * PawnDirection(b.turn) + 1
    ensures forall m :: m in ms ==>
      m.from == sq && OnBoardSquare(m.to) &&
      (b.squares[m.to].color == Opponent(b.turn) || m.to == b.epSquare)
    ensures forall m :: m in ms ==> m.promotion == Empty || (IsPromotionPiece(m.promotion) && PromotionRank(m.to))
    ensures forall m :: m in ms ==> (PromotionRank(m.to) && m.to != b.epSquare ==> m.promotion != Empty)
    ensures forall m :: m in ms ==> m.to != sq + 16 && sq != m.to + 16
    ensures PromotionsGrouped(ms)
  {
    if !OnBoard(nr, nc) then []
    else if At(b, nr, nc).color == Opponent(b.turn) then PawnStep(sq, nr, nc)
    else if Index(nr, nc) == b.epSquare then
      NoPromotionsAreGrouped([QuietMove(sq, Index(nr, nc))]);
      [QuietMove(sq, Index(nr, nc))]
    else []
  }

  /** Pushes, then the capture towards the lower column, then the higher. */
  function PawnMoves(b: Board, sq: int): (ms: seq<Move>)
    requires OnBoardSquare(sq)
    ensures b.squares[sq] == Piece(Pawn, b.turn) ==> AllOk(b, ms)
    ensures forall m :: m in ms ==> m.from == sq
    ensures PromotionsGrouped(ms)
  {
    var nr := sq / 8 + PawnDirection(b.turn);
    SquareRowColumn(sq);
    var pushes := PawnPushes(b, sq);
    var left := PawnCapture(b, sq, nr, sq % 8 - 1);
    var right := PawnCapture(b, sq, nr, sq % 8 + 1);
    PromotionsGroupedAppend(pushes, left);
    PromotionsGroupedAppend(pushes + left, right);
    if b.squares[sq] == Piece(Pawn, b.turn) then
      PawnMovesOk(b, sq, pushes);
      PawnMovesOk(b, sq, left);
      PawnMovesOk(b, sq, right);
      pushes + left + right
    else
      pushes + left + right
  }

  /** The conditions under which a pawn's move is `MoveOk`. */
  lemma PawnMovesOk(b: Board, sq: int, ms: seq<Move>)
    requires OnBoardSquare(sq) && b.squares[sq] == Piece(Pawn, b.turn)
    requires forall m :: m in ms ==>
      m.from == sq && OnBoardSquare(m.to) &&
      (b.squares[m.to].kind == Empty || b.squares[m.to].color == Opponent(b.turn) || m.to == b.epSquare)
    requires forall m :: m in ms ==> m.promotion == Empty || (IsPromotionPiece(m.promotion) && PromotionRank(m.to))
    requires forall m :: m in ms ==> (PromotionRank(m.to) && m.to != b.epSquare ==> m.promotion != Empty)
    requires forall m :: m in ms ==> (m.to == sq + 16 || sq == m.to + 16 ==> DoublePush(b, sq, m.to))
    ensures AllOk(b, ms)
  {
  }

  // ---------------------------------------------------------------------
  // Knights and kings
  // ---------------------------------------------------------------------

  /** Steps by each offset in turn onto squares not held by the side to
      move. */
  function LeaperMoves(b: Board, sq: int, p: Pos, offsets: seq<Offset>): (ms: seq<Move>)
    ensures forall m :: m in ms ==>
      && m.from == sq && m.promotion == Empty && OnBoardSquare(m.to)
      && b.squares[m.to].color != b.turn
    ensures forall k :: (0 <= k < |offsets| && OnBoardAt(Step(p, offsets[k])) &&
                         PieceOn(b, Step(p, offsets[k])).color != b.turn) ==>
      QuietMove(sq, SquareOf(Step(p, offsets[k]))) in ms
    decreases |offsets|
  {
    if |offsets| == 0 then []
    else
      var t := Step(p, offsets[0]);
      var here := if OnBoardAt(t) && PieceOn(b, t).color != b.turn then [QuietMove(sq, SquareOf(t))] else [];
      var rest := LeaperMoves(b, sq, p, offsets[1..]);
      assert forall k :: 1 <= k < |offsets| ==> offsets[k] == offsets[1..][k - 1];
      here + rest
  }

  /** The castling moves: each right whose squares between king and rook
      are empty, with no test of the king's square or of attacks. */
  function CastlingMoves(b: Board): (ms: seq<Move>)
    ensures forall m :: m in ms ==> IsCastlingMove(b.turn, m) && b.squares[m.to].kind == Empty
  {
    var s := b.squares;
    if b.turn == White then
      (if b.castleWK && s[F1].kind == Empty && s[G1].kind == Empty then [QuietMove(E1, G1)] else []) +
      (if b.castleWQ && s[D1].kind == Empty && s[C1].kind == Empty && s[B1].kind == Empty
       then [QuietMove(E1, C1)] else [])
    else
      (if b.castleBK && s[F8].kind == Empty && s[G8].kind == Empty then [QuietMove(E8, G8)] else []) +
      (if b.castleBQ && s[D8].kind == Empty && s[C8].kind == Empty && s[B8].kind == Empty
       then [QuietMove(E8, C8)] else [])
  }

  // ---------------------------------------------------------------------
  // Sliding pieces
  // ---------------------------------------------------------------------

  /** The moves along one ray starting at `p`: empty squares, then the
      first occupied square if it holds an enemy piece. */
  function Ray(b: Board, sq: int, p: Pos, d: Offset): (ms: seq<Move>)
    requires IsDirection(d)
    ensures forall m :: m in ms ==>
      && m.from == sq && m.promotion == Empty && OnBoardSquare(m.to)
      && (b.squares[m.to].kind == Empty || b.squares[m.to].color == Opponent(b.turn))
    decreases Reach(p, d)
  {
    if !OnBoardAt(p) then []
    else
      OnBoardIndex(p.r, p.c);
      var here := QuietMove(sq, SquareOf(p));
      if PieceOn(b, p).kind == Empty then [here] + Ray(b, sq, Step(p, d), d)
      else if PieceOn(b, p).color == Opponent(b.turn) then [here]
      else []
  }

  /** One step along the walk is the walk from the next square. */
  lemma WalkShift(p: Pos, d: Offset, j: nat)
    ensures Walk(p, d, j + 1) == Walk(Step(p, d), d, j)
  {
  }

  /** A ray that goes on past `p` is `p`'s move followed by the ray from
      the next square. */
  lemma RayUnfold(b: Board, sq: int, p: Pos, d: Offset)
    requires IsDirection(d) && OnBoardAt(p) && PieceOn(b, p).kind == Empty
    ensures Ray(b, sq, p, d) == [QuietMove(sq, SquareOf(p))] + Ray(b, sq, Step(p, d), d)
  {
  }

  /** The j-th move of a ray goes to the j-th square of the walk. */
  lemma {:induction false} RayWalks(b: Board, sq: int, p: Pos, d: Offset)
    requires IsDirection(d)
    ensures var ms := Ray(b, sq, p, d);
      forall j :: 0 <= j < |ms| ==>
        OnBoardAt(Walk(p, d, j)) && ms[j] == QuietMove(sq, SquareOf(Walk(p, d, j)))
    decreases Reach(p, d)
  {
    if OnBoardAt(p) && PieceOn(b, p).kind == Empty {
      var rest := Ray(b, sq, Step(p, d), d);
      var ms := Ray(b, sq, p, d);
      RayUnfold(b, sq, p, d);
      RayWalks(b, sq, Step(p, d), d);
      forall j | 0 <= j < |ms|
        ensures OnBoardAt(Walk(p, d, j)) && ms[j] == QuietMove(sq, SquareOf(Walk(p, d, j)))
      {
        if j > 0 {
          WalkShift(p, d, j - 1);
          assert ms[j] == rest[j - 1];
        }
      }
    }
  }

  /** Every square of a ray before its last one is empty, and the last is
      empty or holds an enemy. */
  lemma {:induction false} RayPassesEmpty(b: Board, sq: int, p: Pos, d: Offset)
    requires IsDirection(d)
    ensures var ms := Ray(b, sq, p, d);
      forall j :: 0 <= j < |ms| ==>
        OnBoardAt(Walk(p, d, j)) &&
        (PieceOn(b, Walk(p, d, j)).kind == Empty ||
         (j == |ms| - 1 && PieceOn(b, Walk(p, d, j)).color == Opponent(b.turn)))
    decreases Reach(p, d)
  {
    if OnBoardAt(p) && PieceOn(b, p).kind == Empty {
      var rest := Ray(b, sq, Step(p, d), d);
      var ms := Ray(b, sq, p, d);
      RayUnfold(b, sq, p, d);
      RayPassesEmpty(b, sq, Step(p, d), d);
      forall j | 0 <= j < |ms|
        ensures OnBoardAt(Walk(p, d, j)) &&
          (PieceOn(b, Walk(p, d, j)).kind == Empty ||
           (j == |ms| - 1 && PieceOn(b, Walk(p, d, j)).color == Opponent(b.turn)))
      {
        if j > 0 {
          WalkShift(p, d, j - 1);
        }
      }
    }
  }

  /** A ray ends at the edge of the board, at an enemy it captures, or
      just before a square it may not enter. */
  lemma {:induction false} RayStops(b: Board, sq: int, p: Pos, d: Offset)
    requires IsDirection(d)
    ensures var ms := Ray(b, sq, p, d);
      var next := Walk(p, d, |ms|);
      (|ms| > 0 && OnBoardAt(Walk(p, d, |ms| - 1)) && PieceOn(b, Walk(p, d, |ms| - 1)).kind != Empty) ||
      !OnBoardAt(next) || (PieceOn(b, next).kind != Empty && PieceOn(b, next).color != Opponent(b.turn))
    decreases Reach(p, d)
  {
    if OnBoardAt(p) && PieceOn(b, p).kind == Empty {
      var rest := Ray(b, sq, Step(p, d), d);
      RayUnfold(b, sq, p, d);
      RayStops(b, sq, Step(p, d), d);
      WalkShift(p, d, |rest|);
      if |rest| > 0 {
        WalkShift(p, d, |rest| - 1);
      }
    }
  }

  /** The rays in each direction in turn, from the square after `p`. */
  function SlideMoves(b: Board, sq: int, p: Pos, dirs: seq<Offset>): (ms: seq<Move>)
    requires AllDirections(dirs)
    ensures forall m :: m in ms ==>
      && m.from == sq && m.promotion == Empty && OnBoardSquare(m.to)
      && (b.squares[m.to].kind == Empty || b.squares[m.to].color == Opponent(b.turn))
    decreases |dirs|
  {
    if |dirs| == 0 then []
    else Ray(b, sq, Step(p, dirs[0]), dirs[0]) + SlideMoves(b, sq, p, dirs[1..])
  }

  /** Every ray is part of the slide. */
  lemma {:induction false} SlideMovesContainRays(b: Board, sq: int, p: Pos, dirs: seq<Offset>, k: int)
    requires AllDirections(dirs) && 0 <= k < |dirs|
    ensures forall m :: m in Ray(b, sq, Step(p, dirs[k]), dirs[k]) ==> m in SlideMoves(b, sq, p, dirs)
    decreases |dirs|
  {
    var first := Ray(b, sq, Step(p, dirs[0]), dirs[0]);
    var rest := SlideMoves(b, sq, p, dirs[1..]);
    assert SlideMoves(b, sq, p, dirs) == first + rest;
    if k > 0 {
      assert dirs[k] == dirs[1..][k - 1];
      SlideMovesContainRays(b, sq, p, dirs[1..], k - 1);
      forall m | m in Ray(b, sq, Step(p, dirs[k]), dirs[k])
        ensures m in SlideMoves(b, sq, p, dirs)
      {
        assert m in rest;
      }
    }
  }

  // ---------------------------------------------------------------------
  // The whole board
  // ---------------------------------------------------------------------

  /** The rook's four directions, the bishop's four, or the queen's
      eight. */
  function SlideDirections(kind: PieceType): (ds: seq<Offset>)
    ensures AllDirections(ds)
  {
    QueenDirectionsAreDirections();
    if kind == Rook then RookDirections
    else if kind == Bishop then BishopDirections
    else QueenDirections
  }

  /** What the moves of a knight, king, rook, bishop or queen on `sq`
      have in common: they leave `sq` (or are castling moves), promote to
      nothing and land on the board off the side to move's pieces. */
  predicate OfficerTargets(b: Board, sq: int, ms: seq<Move>) {
    forall m :: m in ms ==>
      && (m.from == sq || IsCastlingMove(b.turn, m)) && m.promotion == Empty
      && OnBoardSquare(m.to) && !Friendly(b.squares[m.to], b.turn)
  }

  lemma OfficerMovesOk(b: Board, sq: int, ms: seq<Move>)
    requires OnBoardSquare(sq) && Friendly(b.squares[sq], b.turn) && b.squares[sq].kind != Pawn
    requires OfficerTargets(b, sq, ms)
    ensures AllOk(b, ms) && PromotionsGrouped(ms)
  {
    NoPromotionsAreGrouped(ms);
  }

  function KnightMoves(b: Board, sq: int): (ms: seq<Move>)
    requires OnBoardSquare(sq)
    ensures OfficerTargets(b, sq, ms)
  {
    LeaperMoves(b, sq, Pos(sq / 8, sq % 8), KnightOffsets)
  }

  /** The king's steps, then the castling moves. */
  function KingMoves(b: Board, sq: int): (ms: seq<Move>)
    requires OnBoardSquare(sq)
    ensures OfficerTargets(b, sq, ms)
  {
    LeaperMoves(b, sq, Pos(sq / 8, sq % 8), KingOffsets) + CastlingMoves(b)
  }

  function SliderMoves(b: Board, sq: int, kind: PieceType): (ms: seq<Move>)
    requires OnBoardSquare(sq)
    ensures OfficerTargets(b, sq, ms)
  {
    SlideMoves(b, sq, Pos(sq / 8, sq % 8), SlideDirections(kind))
  }

  /** The moves of a knight, king, rook, bishop or queen of the side to
      move standing on `sq`. */
  function OfficerMoves(b: Board, sq: int): (ms: seq<Move>)
    requires OnBoardSquare(sq) && Friendly(b.squares[sq], b.turn) && b.squares[sq].kind != Pawn
    ensures AllOk(b, ms)
    ensures PromotionsGrouped(ms)
    ensures forall m :: m in ms ==> m.from == sq || IsCastlingMove(b.turn, m)
  {
    var kind := b.squares[sq].kind;
    var ms :=
      if kind == Knight then KnightMoves(b, sq)
      else if kind == King then KingMoves(b, sq)
      else SliderMoves(b, sq, kind);
    OfficerMovesOk(b, sq, ms);
    ms
  }

  /** The moves of the piece on `sq`, if it belongs to the side to move.
      A square of another colour, or of the side to move but `Empty`,
      yields none. */
  function PieceMoves(b: Board, sq: int): (ms: seq<Move>)
    requires OnBoardSquare(sq)
    ensures AllOk(b, ms)
    ensures PromotionsGrouped(ms)
    ensures forall m :: m in ms ==> m.from == sq || IsCastlingMove(b.turn, m)
  {
    var piece := b.squares[sq];
    if piece.color != b.turn || piece.kind == Empty then []
    else if piece.kind == Pawn then PawnMoves(b, sq)
    else OfficerMoves(b, sq)
  }

  /** The moves of squares `i` to 63, in square order. */
  function MovesFrom(b: Board, i: int): (ms: seq<Move>)
    requires 0 <= i <= 64
    ensures AllOk(b, ms)
    decreases 64 - i
  {
    if i == 64 then [] else PieceMoves(b, i) + MovesFrom(b, i + 1)
  }

  /** `generatePseudoLegalMoves`. */
  function PseudoLegalMoves(b: Board): (ms: seq<Move>)
    ensures AllOk(b, ms)
  {
    MovesFrom(b, 0)
  }

  /** `generateLegalMoves`: no move is filtered out for leaving the king
      in check, so the result is the pseudo-legal list itself. */
  function GenerateLegalMoves(b: Board): (ms: seq<Move>)
    ensures ms == PseudoLegalMoves(b)
    ensures AllOk(b, ms)
  {
    PseudoLegalMoves(b)
  }

  lemma {:induction false} MovesFromGrouped(b: Board, i: int)
    requires 0 <= i <= 64
    ensures PromotionsGrouped(MovesFrom(b, i))
    decreases 64 - i
  {
    if i < 64 {
      MovesFromGrouped(b, i + 1);
      PromotionsGroupedAppend(PieceMoves(b, i), MovesFrom(b, i + 1));
    }
  }

  /** Promotions in the generated list come in blocks of four: queen,
      rook, bishop, knight. */
  lemma PseudoLegalPromotionsGrouped(b: Board)
    ensures PromotionsGrouped(PseudoLegalMoves(b))
  {
    MovesFromGrouped(b, 0);
  }

  lemma {:induction false} MovesFromContains(b: Board, i: int, sq: int)
    requires 0 <= i <= sq < 64
    ensures forall m :: m in PieceMoves(b, sq) ==> m in MovesFrom(b, i)
    decreases sq - i
  {
    if i < sq {
      MovesFromContains(b, i + 1, sq);
    }
  }

  /** Castling is offered whenever the side to move has a king anywhere,
      the right is held and the squares between are empty: the king's
      square and attacks on the path are not looked at. */
  lemma CastlingOffered(b: Board, king: int)
    requires OnBoardSquare(king) && b.squares[king] == Piece(King, b.turn)
    ensures b.turn == White && b.castleWK && b.squares[F1].kind == Empty && b.squares[G1].kind == Empty ==>
      QuietMove(E1, G1) in GenerateLegalMoves(b)
    ensures (b.turn == White && b.castleWQ && b.squares[D1].kind == Empty && b.squares[C1].kind == Empty &&
             b.squares[B1].kind == Empty) ==> QuietMove(E1, C1) in GenerateLegalMoves(b)
    ensures b.turn == Black && b.castleBK && b.squares[F8].kind == Empty && b.squares[G8].kind == Empty ==>
      QuietMove(E8, G8) in GenerateLegalMoves(b)
    ensures (b.turn == Black && b.castleBQ && b.squares[D8].kind == Empty && b.squares[C8].kind == Empty &&
             b.squares[B8].kind == Empty) ==> QuietMove(E8, C8) in GenerateLegalMoves(b)
  {
    CastlingMovesGenerated(b, king);
    var s := b.squares;
    if b.turn == White {
      if b.castleWK && s[F1].kind == Empty && s[G1].kind == Empty {
        assert QuietMove(E1, G1) in CastlingMoves(b);
      }
      if b.castleWQ && s[D1].kind == Empty && s[C1].kind == Empty && s[B1].kind == Empty {
        assert QuietMove(E1, C1) in CastlingMoves(b);
      }
    } else {
      if b.castleBK && s[F8].kind == Empty && s[G8].kind == Empty {
        assert QuietMove(E8, G8) in CastlingMoves(b);
      }
      if b.castleBQ && s[D8].kind == Empty && s[C8].kind == Empty && s[B8].kind == Empty {
        assert QuietMove(E8, C8) in CastlingMoves(b);
      }
    }
  }

  /** With a king of the side to move on the board, its castling moves are
      all in the generated list. */
  lemma CastlingMovesGenerated(b: Board, king: int)
    requires OnBoardSquare(king) && b.squares[king] == Piece(King, b.turn)
    ensures forall m :: m in CastlingMoves(b) ==> m in GenerateLegalMoves(b)
  {
    MovesFromContains(b, 0, king);
    var p := Pos(king / 8, king % 8);
    assert PieceMoves(b, king) == LeaperMoves(b, king, p, KingOffsets) + CastlingMoves(b) by {
      assert PieceMoves(b, king) == OfficerMoves(b, king) == KingMoves(b, king);
    }
    forall m | m in CastlingMoves(b)
      ensures m in GenerateLegalMoves(b)
    {
      assert m in PieceMoves(b, king);
    }
  }

  /** Every square along a rook's, bishop's or queen's ray up to and
      including an enemy blocker is a generated move. */
  lemma SlidesGenerated(b: Board, sq: int, k: int)
    requires OnBoardSquare(sq) && b.squares[sq].color == b.turn
    requires b.squares[sq].kind in {Rook, Bishop, Queen}
    requires 0 <= k < |SlideDirections(b.squares[sq].kind)|
    ensures var d := SlideDirections(b.squares[sq].kind)[k];
      forall m :: m in Ray(b, sq, Step(Pos(sq / 8, sq % 8), d), d) ==> m in GenerateLegalMoves(b)
  {
    var p := Pos(sq / 8, sq % 8);
    var ds := SlideDirections(b.squares[sq].kind);
    var d := ds[k];
    assert PieceMoves(b, sq) == SlideMoves(b, sq, p, ds) by {
      assert PieceMoves(b, sq) == OfficerMoves(b, sq) == SliderMoves(b, sq, b.squares[sq].kind);
    }
    SlideMovesContainRays(b, sq, p, ds, k);
    MovesFromContains(b, 0, sq);
    forall m | m in Ray(b, sq, Step(p, d), d)
      ensures m in GenerateLegalMoves(b)
    {
      assert m in PieceMoves(b, sq);
    }
  }

  /** `to` is one row ahead of `from` for side `us` (up for White, down
      for Black) and `dc` columns across. */
  predicate AheadOf(us: Color, from: int, to: int, dc: int) {
    && OnBoardSquare(from) && OnBoardSquare(to)
    && to / 8 == from / 8 + PawnDirection(us) && to % 8 == from % 8 + dc
  }

  /** A pawn's arrival on `to`: the four promotions on the first or last
      row, one plain move elsewhere. */
  function Arrival(from: int, to: int): seq<Move> {
    if PromotionRank(to) then Promotions(from, to) else [QuietMove(from, to)]
  }

  lemma PawnMovesSplit(b: Board, sq: int)
    requires OnBoardSquare(sq)
    ensures var nr := sq / 8 + PawnDirection(b.turn);
      PawnMoves(b, sq) ==
        PawnPushes(b, sq) + PawnCapture(b, sq, nr, sq % 8 - 1) + PawnCapture(b, sq, nr, sq % 8 + 1)
  {
  }

  lemma PawnStepArrives(sq: int, r: int, c: int)
    requires OnBoard(r, c)
    ensures PawnStep(sq, r, c) == Arrival(sq, Index(r, c))
  {
  }

  /** The single push onto the empty square straight ahead. */
  lemma PawnPushGenerated(b: Board, sq: int, to: int)
    requires OnBoardSquare(sq) && AheadOf(b.turn, sq, to, 0) && b.squares[to].kind == Empty
    ensures forall m :: m in Arrival(sq, to) ==> m in PawnPushes(b, sq)
  {
    var nr := sq / 8 + PawnDirection(b.turn);
    var c := sq % 8;
    assert OnBoard(nr, c) && Index(nr, c) == to;
    PawnStepArrives(sq, nr, c);
  }

  /** The double push from the starting row over two empty squares. */
  lemma PawnDoublePushGenerated(b: Board, sq: int, to: int)
    requires OnBoardSquare(sq) && OnBoardSquare(to) && DoublePush(b, sq, to)
    ensures QuietMove(sq, to) in PawnPushes(b, sq)
  {
    var nr := sq / 8 + PawnDirection(b.turn);
    var c := sq % 8;
    assert OnBoard(nr, c) && Index(nr, c) == sq + 8 * PawnDirection(b.turn);
    assert !(nr == 0 || nr == 7);
    assert PawnDoubleStep(b, sq) == [QuietMove(sq, to)];
  }

  /** A diagonal step onto an enemy piece, or else onto the en-passant
      square. */
  lemma PawnCaptureGenerated(b: Board, sq: int, to: int, dc: int)
    requires dc == -1 || dc == 1
    requires AheadOf(b.turn, sq, to, dc)
    ensures b.squares[to].color == Opponent(b.turn) ==>
      forall m :: m in Arrival(sq, to) ==> m in PawnMoves(b, sq)
    ensures b.squares[to].color != Opponent(b.turn) && to == b.epSquare ==>
      QuietMove(sq, to) in PawnMoves(b, sq)
  {
    var nr := sq / 8 + PawnDirection(b.turn);
    var nc := sq % 8 + dc;
    assert OnBoard(nr, nc) && Index(nr, nc) == to;
    PawnStepArrives(sq, nr, nc);
    PawnMovesSplit(b, sq);
    var capture := PawnCapture(b, sq, nr, nc);
    assert forall m :: m in capture ==> m in PawnMoves(b, sq);
  }

  /** Completeness for pawns: a pawn of the side to move is offered the
      single push onto an empty square ahead, the double push from its
      starting row, and the diagonal step onto an enemy piece (each as
      four promotions on the last row) or onto the en-passant square. */
  lemma PawnsGenerated(b: Board, sq: int, to: int)
    requires OnBoardSquare(sq) && OnBoardSquare(to) && b.squares[sq] == Piece(Pawn, b.turn)
    ensures AheadOf(b.turn, sq, to, 0) && b.squares[to].kind == Empty ==>
      forall m :: m in Arrival(sq, to) ==> m in PseudoLegalMoves(b)
    ensures DoublePush(b, sq, to) ==> QuietMove(sq, to) in PseudoLegalMoves(b)
    ensures ((AheadOf(b.turn, sq, to, -1) || AheadOf(b.turn, sq, to, 1)) &&
             b.squares[to].color == Opponent(b.turn)) ==>
      forall m :: m in Arrival(sq, to) ==> m in PseudoLegalMoves(b)
    ensures ((AheadOf(b.turn, sq, to, -1) || AheadOf(b.turn, sq, to, 1)) &&
             b.squares[to].color != Opponent(b.turn) && to == b.epSquare) ==>
      QuietMove(sq, to) in PseudoLegalMoves(b)
  {
    assert PieceMoves(b, sq) == PawnMoves(b, sq);
    MovesFromContains(b, 0, sq);
    PawnMovesSplit(b, sq);
    assert forall m :: m in PawnPushes(b, sq) ==> m in PawnMoves(b, sq);
    if AheadOf(b.turn, sq, to, 0) && b.squares[to].kind == Empty {
      PawnPushGenerated(b, sq, to);
    }
    if DoublePush(b, sq, to) {
      PawnDoublePushGenerated(b, sq, to);
    }
    if AheadOf(b.turn, sq, to, -1) {
      PawnCaptureGenerated(b, sq, to, -1);
    }
    if AheadOf(b.turn, sq, to, 1) {
      PawnCaptureGenerated(b, sq, to, 1);
    }
  }

  // ---------------------------------------------------------------------
  // isSquareAttacked
  // ---------------------------------------------------------------------

  /** A piece of `kind` and colour `a` one of `offsets` away from (r, c). */
  predicate LeaperAttack(b: Board, r: int, c: int, offsets: seq<Offset>, kind: PieceType, a: Color) {
    exists k :: 0 <= k < |offsets| && OnBoardAt(Step(Pos(r, c), offsets[k])) &&
      PieceOn(b, Step(Pos(r, c), offsets[k])) == Piece(kind, a)
  }

  /** A pawn of colour `a` on the row it captures (r, c) from: the row
      below for White, above otherwise. */
  predicate PawnAttack(b: Board, r: int, c: int, a: Color) {
    var pr := if a == White then r - 1 else r + 1;
    (OnBoard(pr, c - 1) && At(b, pr, c - 1) == Piece(Pawn, a)) ||
    (OnBoard(pr, c + 1) && At(b, pr, c + 1) == Piece(Pawn, a))
  }

  /** The first occupied square on the walk from `p` in direction `d` is
      `j` steps along. */
  predicate FirstBlocker(b: Board, p: Pos, d: Offset, j: nat) {
    && OnBoardAt(Walk(p, d, j)) && PieceOn(b, Walk(p, d, j)).kind != Empty
    && forall i :: 0 <= i < j ==> OnBoardAt(Walk(p, d, i)) && PieceOn(b, Walk(p, d, i)).kind == Empty
  }

  /** The kinds that attack along the queen direction `k`: rook and queen
      orthogonally, bishop and queen diagonally. */
  predicate SlidesAlong(kind: PieceType, k: int) {
    if k < 4 then kind == Rook || kind == Queen else kind == Bishop || kind == Queen
  }

  ghost predicate SliderAttack(b: Board, r: int, c: int, a: Color) {
    exists k: nat, j: nat :: k < |QueenDirections| && FirstBlocker(b, Step(Pos(r, c), QueenDirections[k]), QueenDirections[k], j) &&
      PieceOn(b, Walk(Step(Pos(r, c), QueenDirections[k]), QueenDirections[k], j)).color == a &&
      SlidesAlong(PieceOn(b, Walk(Step(Pos(r, c), QueenDirections[k]), QueenDirections[k], j)).kind, k)
  }

  /** What it means for `sq` (row `sq / 8`, column `sq % 8`, in C++
      arithmetic) to be attacked by side `a`. */
  ghost predicate Attacked(b: Board, sq: int, a: Color) {
    var r := CppDiv(sq, 8);
    var c := CppRem(sq, 8);
    || LeaperAttack(b, r, c, KnightOffsets, Knight, a)
    || LeaperAttack(b, r, c, KingOffsets, King, a)
    || PawnAttack(b, r, c, a)
    || SliderAttack(b, r, c, a)
  }

  /** `isSquareAttacked`: knights, kings, pawns, then the first piece on
      each of the eight rays. */
  method IsSquareAttacked(b: Board, sq: int, a: Color) returns (attacked: bool)
    ensures attacked <==> Attacked(b, sq, a)
  {
    var r := CppDiv(sq, 8);
    var c := CppRem(sq, 8);
    attacked := LeaperHit(b, r, c, KnightOffsets, Knight, a);
    if attacked {
      return;
    }
    attacked := LeaperHit(b, r, c, KingOffsets, King, a);
    if attacked {
      return;
    }
    attacked := PawnHit(b, r, c, a);
    if attacked {
      return;
    }
    attacked := SlidersHit(b, r, c, a);
  }

  /** The knight or king loop: is a `kind` of colour `a` one of
      `offsets` away? */
  method LeaperHit(b: Board, r: int, c: int, offsets: seq<Offset>, kind: PieceType, a: Color) returns (hit: bool)
    ensures hit <==> LeaperAttack(b, r, c, offsets, kind, a)
  {
    var origin := Pos(r, c);
    var k := 0;
    while k < |offsets|
      invariant 0 <= k <= |offsets|
      invariant forall i :: 0 <= i < k ==>
        !(OnBoardAt(Step(origin, offsets[i])) && PieceOn(b, Step(origin, offsets[i])) == Piece(kind, a))
    {
      var t := Step(origin, offsets[k]);
      if OnBoardAt(t) {
        var p := PieceOn(b, t);
        if p.kind == kind && p.color == a {
          return true;
        }
      }
      k := k + 1;
    }
    return false;
  }

  /** The pawn loop over the two diagonal neighbours on the row the
      attacker captures from. */
  method PawnHit(b: Board, r: int, c: int, a: Color) returns (hit: bool)
    ensures hit <==> PawnAttack(b, r, c, a)
  {
    var pdir := if a == White then -1 else 1;
    var dcs := [-1, 1];
    var k := 0;
    while k < 2
      invariant 0 <= k <= 2
      invariant forall i :: 0 <= i < k ==>
        !(OnBoard(r + pdir, c + dcs[i]) && At(b, r + pdir, c + dcs[i]) == Piece(Pawn, a))
    {
      var nr := r + pdir;
      var nc := c + dcs[k];
      if OnBoard(nr, nc) {
        var p := At(b, nr, nc);
        if p.kind == Pawn && p.color == a {
          return true;
        }
      }
      k := k + 1;
    }
    assert dcs[0] == -1 && dcs[1] == 1;
    return false;
  }

  /** The slider loop over the eight queen directions. */
  method SlidersHit(b: Board, r: int, c: int, a: Color) returns (hit: bool)
    ensures hit <==> SliderAttack(b, r, c, a)
  {
    var origin := Pos(r, c);
    QueenDirectionsAreDirections();
    var k := 0;
    while k < 8
      invariant 0 <= k <= 8
      invariant forall i: nat, j: nat :: i < k && i < |QueenDirections| && FirstBlocker(b, Step(origin, QueenDirections[i]), QueenDirections[i], j) ==>
        !(PieceOn(b, Walk(Step(origin, QueenDirections[i]), QueenDirections[i], j)).color == a &&
          SlidesAlong(PieceOn(b, Walk(Step(origin, QueenDirections[i]), QueenDirections[i], j)).kind, i))
    {
      var d := QueenDirections[k];
      hit := SliderHit(b, Step(origin, d), d, a, k);
      if hit {
        return;
      }
      k := k + 1;
    }
    return false;
  }

  /** The inner loop of the slider test along one direction: walk until
      the board ends or a piece is met, and report whether that piece is
      an attacker moving along this direction. */
  method SliderHit(b: Board, start: Pos, d: Offset, a: Color, k: int) returns (hit: bool)
    requires IsDirection(d)
    ensures hit <==> exists j: nat ::
      (FirstBlocker(b, start, d, j) && PieceOn(b, Walk(start, d, j)).color == a &&
       SlidesAlong(PieceOn(b, Walk(start, d, j)).kind, k))
  {
    var pos := start;
    ghost var j: nat := 0;
    while OnBoardAt(pos)
      invariant pos == Walk(start, d, j)
      invariant forall i :: 0 <= i < j ==> OnBoardAt(Walk(start, d, i)) && PieceOn(b, Walk(start, d, i)).kind == Empty
      decreases Reach(pos, d)
    {
      var p := PieceOn(b, pos);
      if p.kind != Empty {
        assert FirstBlocker(b, start, d, j);
        FirstBlockerUnique(b, start, d, j);
        return p.color == a && SlidesAlong(p.kind, k);
      }
      WalkStep(start, d, j);
      pos := Step(pos, d);
      j := j + 1;
    }
    NoBlockerPastEdge(b, start, d, j);
    return false;
  }

  lemma {:induction false} WalkStep(p: Pos, d: Offset, j: nat)
    ensures Walk(p, d, j + 1) == Step(Walk(p, d, j), d)
    decreases j
  {
    if j > 0 {
      WalkStep(Step(p, d), d, j - 1);
    }
  }

  /** A walk that leaves the board over empty squares meets no blocker. */
  lemma NoBlockerPastEdge(b: Board, p: Pos, d: Offset, j: nat)
    requires !OnBoardAt(Walk(p, d, j))
    requires forall i :: 0 <= i < j ==> OnBoardAt(Walk(p, d, i)) && PieceOn(b, Walk(p, d, i)).kind == Empty
    ensures forall j': nat :: !FirstBlocker(b, p, d, j')
  {
  }

  /** There is at most one first blocker on a walk. */
  lemma FirstBlockerUnique(b: Board, p: Pos, d: Offset, j: nat)
    requires FirstBlocker(b, p, d, j)
    ensures forall j': nat :: FirstBlocker(b, p, d, j') ==> j' == j
  {
  }
}

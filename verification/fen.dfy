/** Forsyth-Edwards Notation as the engine reads and writes it
    (`Board::parseFEN` and `Board::toFEN`, engine-cpp/src/Board.cpp), the
    position format of section 16.1 of the PGN standard. */
module Fen {
  import opened Wrappers
  import opened CText
  import opened ChessTypes
  import opened Boards

  // ---------------------------------------------------------------------
  // Writing
  // ---------------------------------------------------------------------

  predicate IsLetter(ch: char) { IsLower(ch) || IsUpper(ch) }

  /** The letter written for an occupied square: upper case for White,
      lower case otherwise. */
  function PieceChar(p: Piece): (ch: char)
    requires p.kind != Empty
    ensures IsLetter(ch)
    ensures IsUpper(ch) <==> p.color == White
  {
    var lower := match p.kind
      case Pawn => 'p'
      case Knight => 'n'
      case Bishop => 'b'
      case Rook => 'r'
      case Queen => 'q'
      case King => 'k';
    if p.color == White then ToUpper(lower) else lower
  }

  /** One rank's text: a letter per piece, and the count of each run of
      empty squares, written when the run ends. `run` is the count of
      empty squares seen but not yet written. */
  function EncodeRow(row: seq<Piece>, run: nat): (s: string)
    requires |row| + run <= 8
    ensures forall i :: 0 <= i < |s| ==> IsDigit(s[i]) || IsLetter(s[i])
    ensures |row| + run > 0 ==> |s| > 0
    decreases |row|
  {
    if |row| == 0 then
      (if run > 0 then [DigitChar(run)] else "")
    else if row[0].kind == Empty then
      EncodeRow(row[1..], run + 1)
    else
      (if run > 0 then [DigitChar(run)] else "") + [PieceChar(row[0])] + EncodeRow(row[1..], 0)
  }

  /** The text of rank `r` (0 is the first rank). */
  function RankText(g: Grid, r: int): string
    requires 0 <= r < 8
  {
    EncodeRow(g[8 * r .. 8 * r + 8], 0)
  }

  /** Ranks `r` down to the first, separated by '/'. */
  function RanksFrom(g: Grid, r: int): (s: string)
    requires 0 <= r < 8
    ensures |s| > 0 && NoSpace(s)
    ensures forall i :: 0 <= i < |s| ==> IsDigit(s[i]) || IsLetter(s[i]) || s[i] == '/'
    decreases r
  {
    RankText(g, r) + (if r > 0 then "/" + RanksFrom(g, r - 1) else "")
  }

  /** The piece-placement field: the eighth rank first. */
  function Placement(g: Grid): string {
    RanksFrom(g, 7)
  }

  function TurnField(c: Color): string {
    if c == White then "w" else "b"
  }

  /** The castling field: the letters of the rights held, in the order
      K, Q, k, q, or "-" when there are none. */
  function CastlingField(b: Board): (s: string)
    ensures s == "-" <==> !AnyCastling(b)
    ensures |s| > 0 && NoSpace(s)
    ensures 'K' in s <==> b.castleWK
    ensures 'Q' in s <==> b.castleWQ
    ensures 'k' in s <==> b.castleBK
    ensures 'q' in s <==> b.castleBQ
  {
    var letters :=
      (if b.castleWK then "K" else "") + (if b.castleWQ then "Q" else "") +
      (if b.castleBK then "k" else "") + (if b.castleBQ then "q" else "");
    assert '-' !in letters;
    if letters == "" then "-" else letters
  }

  /** The en-passant field: "-" when there is no square. */
  function EpField(ep: int): (s: string)
    ensures s == "-" <==> ep == SqNone
  {
    if ep == SqNone then "-" else SquareText(ep)
  }

  /** Fields joined by single spaces. */
  function JoinWithSpaces(fields: seq<string>): string
    requires |fields| > 0
  {
    if |fields| == 1 then fields[0] else fields[0] + " " + JoinWithSpaces(fields[1..])
  }

  function FenFields(b: Board): seq<string> {
    [Placement(b.squares), TurnField(b.turn), CastlingField(b), EpField(b.epSquare),
     IntToString(b.halfMoveClock), IntToString(b.fullMoveNumber)]
  }

  /** `Board::toFEN`. */
  function ToFen(b: Board): string {
    JoinWithSpaces(FenFields(b))
  }

  // ---------------------------------------------------------------------
  // Reading
  // ---------------------------------------------------------------------

  /** The piece a placement letter stands for: White when upper case,
      Black otherwise; a character that names no piece still yields a
      Black or White `Empty`. */
  function PieceOf(ch: char): Piece {
    var color := if IsUpper(ch) then White else Black;
    var lower := ToLower(ch);
    var kind :=
      if lower == 'p' then Pawn
      else if lower == 'n' then Knight
      else if lower == 'b' then Bishop
      else if lower == 'r' then Rook
      else if lower == 'q' then Queen
      else if lower == 'k' then King
      else Empty;
    Piece(kind, color)
  }

  /** The placement loop's state: current rank and file, and the array. */
  datatype Cursor = Cursor(rank: int, file: int, grid: Grid) {
    predicate Valid() { rank <= 7 && file >= 0 }
  }

  /** One character of the placement field: '/' starts the next rank
      down, a digit skips that many files, anything else is a piece,
      written only when the cursor is on the board. */
  function PlaceChar(cur: Cursor, ch: char): (next: Cursor)
    requires cur.Valid()
    ensures next.Valid()
    ensures forall sq :: 0 <= sq < 64 && sq != 8 * cur.rank + cur.file ==> next.grid[sq] == cur.grid[sq]
    ensures cur.file >= 8 || cur.rank < 0 ==> next.grid == cur.grid
    ensures 0 <= cur.rank && cur.file < 8 && ch != '/' && !IsDigit(ch) ==>
      next.grid[8 * cur.rank + cur.file] == PieceOf(ch)
    // '/' starts the next rank down at its first file
    ensures ch == '/' ==> next.rank == cur.rank - 1 && next.file == 0 && next.grid == cur.grid
    // a digit skips that many files
    ensures IsDigit(ch) ==> next.rank == cur.rank && next.file == cur.file + DigitValue(ch) && next.grid == cur.grid
    // any other character takes one file, whether or not it was written
    ensures ch != '/' && !IsDigit(ch) ==> next.rank == cur.rank && next.file == cur.file + 1
  {
    if ch == '/' then Cursor(cur.rank - 1, 0, cur.grid)
    else if IsDigit(ch) then cur.(file := cur.file + DigitValue(ch))
    else
      var g := if cur.file < 8 && cur.rank >= 0 then cur.grid[8 * cur.rank + cur.file := PieceOf(ch)]
               else cur.grid;
      Cursor(cur.rank, cur.file + 1, g)
  }

  /** The placement loop over a whole field. */
  function Place(s: string, cur: Cursor): (last: Cursor)
    requires cur.Valid()
    ensures last.Valid()
    decreases |s|
  {
    if |s| == 0 then cur else Place(s[1..], PlaceChar(cur, s[0]))
  }

  /** A piece letter past the eighth file of a rank moves the cursor on
      but writes nothing: "8" followed by a letter leaves the array as it
      was. */
  lemma OverfullRankDropped(g: Grid, rank: int, ch: char)
    requires 0 <= rank <= 7 && ch != '/' && !IsDigit(ch)
    ensures Place("8" + [ch], Cursor(rank, 0, g)) == Cursor(rank, 9, g)
  {
    var text := "8" + [ch];
    var start := Cursor(rank, 0, g);
    assert IsDigit('8') && DigitValue('8') == 8;
    var mid := PlaceChar(start, '8');
    assert mid == Cursor(rank, 8, g);
    assert text[0] == '8' && text[1..] == [ch];
    assert Place(text, start) == Place([ch], mid);
    assert [ch][0] == ch && [ch][1..] == "";
    assert Place([ch], mid) == Place("", PlaceChar(mid, ch));
    assert PlaceChar(mid, ch) == Cursor(rank, 9, g);
  }

  /** The castling loop: each of K, Q, k, q sets its flag; every other
      character is ignored. */
  function ScanCastling(s: string, b: Board): (r: Board)
    ensures r.castleWK == (b.castleWK || 'K' in s)
    ensures r.castleWQ == (b.castleWQ || 'Q' in s)
    ensures r.castleBK == (b.castleBK || 'k' in s)
    ensures r.castleBQ == (b.castleBQ || 'q' in s)
    ensures r == b.(castleWK := r.castleWK, castleWQ := r.castleWQ,
                    castleBK := r.castleBK, castleBQ := r.castleBQ)
    decreases |s|
  {
    if |s| == 0 then b
    else
      var ch := s[0];
      var b' :=
        if ch == 'K' then b.(castleWK := true)
        else if ch == 'Q' then b.(castleWQ := true)
        else if ch == 'k' then b.(castleBK := true)
        else if ch == 'q' then b.(castleBQ := true)
        else b;
      ScanCastling(s[1..], b')
  }

  /** The en-passant field: "-" is no square; anything else is read as
      a file letter and a rank digit, unchecked. */
  function ParseEp(s: string): (ep: int)
    ensures s == "-" ==> ep == SqNone
  {
    if s == "-" then SqNone
    else (CharCodeAt(s, 1) - '1' as int) * 8 + (CharCodeAt(s, 0) - 'a' as int)
  }

  /** A counter field: kept at its default when absent, else `std::stoi`. */
  function ParseCounter(s: string, default: int): (r: Option<int>)
    ensures s == "" ==> r == Some(default)
    ensures s != "" ==> r == Stoi(s)
  {
    if s == "" then Some(default) else Stoi(s)
  }

  /** `Board::parseFEN` applied to a cleared board. `None` stands for the
      exception `std::stoi` throws on a counter field that is not a
      number; nothing else is rejected. */
  function ParseFen(fen: string): (r: Option<Board>)
    ensures r.Some? ==> (r.value.turn == White <==> Field(fen, 1) == "w")
    ensures r.Some? ==> r.value.turn in {White, Black}
    ensures r.Some? ==> (r.value.castleWK <==> 'K' in Field(fen, 2))
    ensures r.Some? ==> (r.value.castleWQ <==> 'Q' in Field(fen, 2))
    ensures r.Some? ==> (r.value.castleBK <==> 'k' in Field(fen, 2))
    ensures r.Some? ==> (r.value.castleBQ <==> 'q' in Field(fen, 2))
    ensures r.Some? && Field(fen, 3) == "-" ==> r.value.epSquare == SqNone
    ensures r.Some? && Field(fen, 4) == "" ==> r.value.halfMoveClock == 0
    ensures r.Some? && Field(fen, 5) == "" ==> r.value.fullMoveNumber == 1
    ensures r.None? <==>
      (Field(fen, 4) != "" && Stoi(Field(fen, 4)).None?) ||
      (Field(fen, 5) != "" && Stoi(Field(fen, 5)).None?)
  {
    var cleared := Clear();
    var placed := Place(Field(fen, 0), Cursor(7, 0, cleared.squares));
    var turn := if Field(fen, 1) == "w" then White else Black;
    var withRights := ScanCastling(Field(fen, 2), cleared.(squares := placed.grid, turn := turn));
    var ep := ParseEp(Field(fen, 3));
    match ParseCounter(Field(fen, 4), cleared.halfMoveClock)
    case None => None
    case Some(half) =>
      match ParseCounter(Field(fen, 5), cleared.fullMoveNumber)
      case None => None
      case Some(full) =>
        Some(withRights.(epSquare := ep, halfMoveClock := half, fullMoveNumber := full))
  }

  // ---------------------------------------------------------------------
  // Reading back what was written
  // ---------------------------------------------------------------------

  /** The placement loop has filled square `i` when the cursor stands at
      (`rank`, `file`): every rank above, and the files before `file`. */
  predicate Done(i: int, rank: int, file: int) {
    i >= 8 * (rank + 1) || 8 * rank <= i < 8 * rank + file
  }

  /** The array being filled agrees with the target `t` on the squares
      already read and is still empty elsewhere. */
  predicate Agrees(g: Grid, t: Grid, rank: int, file: int) {
    forall i :: 0 <= i < 64 ==> g[i] == (if Done(i, rank, file) then t[i] else NoPiece)
  }

  lemma {:induction false} PlaceAppend(a: string, b: string, cur: Cursor)
    requires cur.Valid()
    ensures Place(a + b, cur) == Place(b, Place(a, cur))
    decreases |a|
  {
    if |a| == 0 {
      assert a + b == b;
    } else {
      assert (a + b)[0] == a[0];
      assert (a + b)[1..] == a[1..] + b;
      PlaceAppend(a[1..], b, PlaceChar(cur, a[0]));
    }
  }

  lemma PieceOfPieceChar(p: Piece)
    requires p.kind != Empty && p.color in {White, Black}
    ensures PieceOf(PieceChar(p)) == p
  {
  }

  /** Skipping a run of empty squares keeps the array in agreement. */
  lemma AgreesSkip(g: Grid, t: Grid, rank: int, file: int, run: int)
    requires WellFormedGrid(t)
    requires 0 <= rank < 8 && 0 <= file && 0 <= run && file + run <= 8
    requires forall i :: 8 * rank + file <= i < 8 * rank + file + run ==> t[i].kind == Empty
    requires Agrees(g, t, rank, file)
    ensures Agrees(g, t, rank, file + run)
  {
  }

  /** The count written for a run of empty squares moves the cursor past
      them, and the array still agrees. */
  lemma SkipRun(t: Grid, rank: int, file: int, run: nat, g: Grid)
    requires WellFormedGrid(t)
    requires 0 <= rank < 8 && 0 <= file && file + run <= 8
    requires forall i :: 8 * rank + file <= i < 8 * rank + file + run ==> t[i].kind == Empty
    requires Agrees(g, t, rank, file)
    ensures Place(if run > 0 then [DigitChar(run)] else "", Cursor(rank, file, g)) == Cursor(rank, file + run, g)
    ensures Agrees(g, t, rank, file + run)
  {
    if run > 0 {
      assert [DigitChar(run)][1..] == "";
    }
    AgreesSkip(g, t, rank, file, run);
  }

  /** Reading the count of a run and then the letter of the piece that
      ends it places that piece and moves past it. */
  lemma PieceStep(row: seq<Piece>, run: nat, rank: int, file: int, g: Grid)
    requires 0 < |row| && |row| + run <= 8
    requires row[0].kind != Empty && row[0].color in {White, Black}
    requires 0 <= rank < 8 && 0 <= file && file + run < 8
    ensures Place(EncodeRow(row, run), Cursor(rank, file, g)) ==
      Place(EncodeRow(row[1..], 0), Cursor(rank, file + run + 1, g[8 * rank + file + run := row[0]]))
  {
    var start := Cursor(rank, file, g);
    var prefix := if run > 0 then [DigitChar(run)] else "";
    var letter := [PieceChar(row[0])];
    var rest := EncodeRow(row[1..], 0);
    assert EncodeRow(row, run) == prefix + letter + rest;
    var c1 := Cursor(rank, file + run, g);
    assert Place(prefix, start) == c1 by {
      if run > 0 {
        assert prefix[1..] == "";
      }
    }
    PieceOfPieceChar(row[0]);
    var c2 := PlaceChar(c1, letter[0]);
    assert c2 == Cursor(rank, file + run + 1, g[8 * rank + file + run := row[0]]);
    assert Place(letter, c1) == c2 by {
      assert letter[1..] == "";
    }
    PlaceAppend(prefix, letter, start);
    PlaceAppend(prefix + letter, rest, start);
  }

  /** Writing the target's piece at the cursor extends the agreement by
      one file. */
  lemma AgreesPlace(g: Grid, t: Grid, rank: int, file: int)
    requires 0 <= rank < 8 && 0 <= file < 8
    requires Agrees(g, t, rank, file)
    ensures Agrees(g[8 * rank + file := t[8 * rank + file]], t, rank, file + 1)
  {
  }

  /** Reading the rest of rank `rank`'s text, from file `file` with `run`
      empty squares not yet counted, leaves the cursor on that rank with
      the whole rank agreeing with `t`. */
  predicate RowRead(t: Grid, rank: int, file: int, run: nat, g: Grid)
    requires 0 <= rank < 8 && 0 <= file && file + run <= 8
  {
    var c := Place(EncodeRow(t[8 * rank + file + run .. 8 * rank + 8], run), Cursor(rank, file, g));
    c.rank == rank && Agrees(c.grid, t, rank, 8)
  }

  /** At the end of the rank only the pending count is left to read. */
  lemma RowEnd(t: Grid, rank: int, file: int, run: nat, g: Grid)
    requires WellFormedGrid(t)
    requires 0 <= rank < 8 && 0 <= file && file + run == 8
    requires forall i :: 8 * rank + file <= i < 8 * rank + file + run ==> t[i].kind == Empty
    requires Agrees(g, t, rank, file)
    ensures RowRead(t, rank, file, run, g)
  {
    var row := t[8 * rank + file + run .. 8 * rank + 8];
    assert EncodeRow(row, run) == if run > 0 then [DigitChar(run)] else "";
    SkipRun(t, rank, file, run, g);
  }

  /** An empty square only adds to the pending count. */
  lemma RowEmptyStep(t: Grid, rank: int, file: int, run: nat, g: Grid)
    requires 0 <= rank < 8 && 0 <= file && file + run < 8
    requires t[8 * rank + file + run].kind == Empty
    requires RowRead(t, rank, file, run + 1, g)
    ensures RowRead(t, rank, file, run, g)
  {
    var row := t[8 * rank + file + run .. 8 * rank + 8];
    assert row[1..] == t[8 * rank + file + (run + 1) .. 8 * rank + 8];
  }

  /** A piece ends the pending run: once it is placed, the agreement
      reaches the file after it. */
  lemma RowPieceAgrees(t: Grid, rank: int, file: int, run: nat, g: Grid)
    requires WellFormedGrid(t)
    requires 0 <= rank < 8 && 0 <= file && file + run < 8
    requires forall i :: 8 * rank + file <= i < 8 * rank + file + run ==> t[i].kind == Empty
    requires Agrees(g, t, rank, file)
    ensures var sq := 8 * rank + file + run;
      Agrees(g[sq := t[sq]], t, rank, file + run + 1)
  {
    SkipRun(t, rank, file, run, g);
    AgreesPlace(g, t, rank, file + run);
  }

  /** Reading the count and the piece's letter, then the rest of the rank
      from the file after the piece, reads the rank. */
  lemma RowPieceStep(t: Grid, rank: int, file: int, run: nat, g: Grid)
    requires WellFormedGrid(t)
    requires 0 <= rank < 8 && 0 <= file && file + run < 8
    requires t[8 * rank + file + run].kind != Empty
    requires var sq := 8 * rank + file + run;
      RowRead(t, rank, file + run + 1, 0, g[sq := t[sq]])
    ensures RowRead(t, rank, file, run, g)
  {
    var sq := 8 * rank + file + run;
    var row := t[8 * rank + file + run .. 8 * rank + 8];
    assert row[0] == t[sq];
    assert row[1..] == t[8 * rank + (file + run + 1) + 0 .. 8 * rank + 8];
    PieceStep(row, run, rank, file, g);
  }

  /** Reading one rank's text, starting with `run` empty squares not yet
      skipped, fills the rest of that rank with the target's pieces. */
  lemma {:induction false} EncodeRowDecodes(t: Grid, rank: int, file: int, run: nat, g: Grid)
    requires WellFormedGrid(t)
    requires 0 <= rank < 8 && 0 <= file && file + run <= 8
    requires forall i :: 8 * rank + file <= i < 8 * rank + file + run ==> t[i].kind == Empty
    requires Agrees(g, t, rank, file)
    ensures RowRead(t, rank, file, run, g)
    decreases 8 - file - run
  {
    var sq := 8 * rank + file + run;
    if file + run == 8 {
      RowEnd(t, rank, file, run, g);
    } else if t[sq].kind == Empty {
      EncodeRowDecodes(t, rank, file, run + 1, g);
      RowEmptyStep(t, rank, file, run, g);
    } else {
      RowPieceAgrees(t, rank, file, run, g);
      EncodeRowDecodes(t, rank, file + run + 1, 0, g[sq := t[sq]]);
      RowPieceStep(t, rank, file, run, g);
    }
  }

  /** Reading ranks `rank` down to the first fills the whole array. */
  lemma {:induction false} RanksDecode(t: Grid, rank: int, g: Grid)
    requires WellFormedGrid(t)
    requires 0 <= rank < 8 && Agrees(g, t, rank, 0)
    ensures Place(RanksFrom(t, rank), Cursor(rank, 0, g)).grid == t
    decreases rank
  {
    var start := Cursor(rank, 0, g);
    assert t[8 * rank + 0 + 0 .. 8 * rank + 8] == t[8 * rank .. 8 * rank + 8];
    EncodeRowDecodes(t, rank, 0, 0, g);
    var c1 := Place(RankText(t, rank), start);
    if rank > 0 {
      var rest := RanksFrom(t, rank - 1);
      PlaceAppend(RankText(t, rank), "/" + rest, start);
      PlaceAppend("/", rest, c1);
      assert Place("/", c1) == Cursor(rank - 1, 0, c1.grid) by {
        assert "/"[1..] == "";
      }
      RanksDecode(t, rank - 1, c1.grid);
    } else {
      assert RanksFrom(t, 0) == RankText(t, 0);
      assert c1.grid == t;
    }
  }

  /** The placement field of a well-formed grid reads back as that grid. */
  lemma PlacementDecodes(t: Grid)
    requires WellFormedGrid(t)
    ensures Place(Placement(t), Cursor(7, 0, Clear().squares)).grid == t
  {
    RanksDecode(t, 7, Clear().squares);
  }

  lemma {:induction false} TokensOfJoin(fields: seq<string>)
    requires |fields| > 0
    requires forall i :: 0 <= i < |fields| ==> |fields[i]| > 0 && NoSpace(fields[i])
    ensures Tokens(JoinWithSpaces(fields)) == fields
    decreases |fields|
  {
    if |fields| == 1 {
      TokensOfWord(fields[0]);
    } else {
      TokensOfSeparated(fields[0], JoinWithSpaces(fields[1..]));
      TokensOfJoin(fields[1..]);
    }
  }

  /** Each field `toFEN` writes for a well-formed board is one token. */
  lemma FenFieldsAreTokens(b: Board)
    requires WellFormed(b)
    ensures Tokens(ToFen(b)) == FenFields(b)
  {
    var fs := FenFields(b);
    forall i | 0 <= i < |fs|
      ensures |fs[i]| > 0 && NoSpace(fs[i])
    {
      if i == 1 {
        assert fs[1] == TurnField(b.turn);
      } else if i == 3 {
        assert fs[3] == EpField(b.epSquare);
        assert NoSpace(EpField(b.epSquare));
      } else if i == 4 {
        CounterHasNoSpace(b.halfMoveClock);
      } else if i == 5 {
        CounterHasNoSpace(b.fullMoveNumber);
      }
    }
    TokensOfJoin(fs);
  }

  lemma CounterHasNoSpace(n: int)
    requires n >= 0
    ensures |IntToString(n)| > 0 && NoSpace(IntToString(n))
  {
    var s := IntToString(n);
    assert s == NatToString(n);
    forall i | 0 <= i < |s|
      ensures !IsSpace(s[i])
    {
      assert IsDigit(s[i]);
    }
  }

  /** The en-passant field of a well-formed board reads back as its
      square. */
  lemma EpFieldParses(b: Board)
    requires WellFormed(b)
    ensures ParseEp(EpField(b.epSquare)) == b.epSquare
  {
    if b.epSquare != SqNone {
      var s := SquareText(b.epSquare);
      assert CharCodeAt(s, 0) == s[0] as int && CharCodeAt(s, 1) == s[1] as int;
    }
  }

  lemma TurnFieldParses(c: Color)
    requires c in {White, Black}
    ensures (if TurnField(c) == "w" then White else Black) == c
  {
    if c == Black {
      assert TurnField(c)[0] != "w"[0];
    }
  }

  /** Scanning the castling field `toFEN` writes, over a board holding no
      rights, restores the rights it was written from. */
  lemma CastlingFieldScans(b: Board, base: Board)
    requires !AnyCastling(base)
    ensures ScanCastling(CastlingField(b), base) ==
      base.(castleWK := b.castleWK, castleWQ := b.castleWQ, castleBK := b.castleBK, castleBQ := b.castleBQ)
  {
  }

  /** The six fields of `toFEN`'s text, one by one. */
  lemma ToFenFields(b: Board)
    requires WellFormed(b)
    ensures var fen := ToFen(b);
      && Field(fen, 0) == Placement(b.squares) && Field(fen, 1) == TurnField(b.turn)
      && Field(fen, 2) == CastlingField(b) && Field(fen, 3) == EpField(b.epSquare)
      && Field(fen, 4) == IntToString(b.halfMoveClock) && Field(fen, 5) == IntToString(b.fullMoveNumber)
  {
    FenFieldsAreTokens(b);
  }

  /** Text whose fields are the ones `toFEN` writes for `b` parses back
      as `b`. */
  lemma ParseFenOfFields(fen: string, b: Board)
    requires WellFormed(b)
    requires Field(fen, 0) == Placement(b.squares) && Field(fen, 1) == TurnField(b.turn)
    requires Field(fen, 2) == CastlingField(b) && Field(fen, 3) == EpField(b.epSquare)
    requires Field(fen, 4) == IntToString(b.halfMoveClock) && Field(fen, 5) == IntToString(b.fullMoveNumber)
    ensures ParseFen(fen) == Some(b)
  {
    var cleared := Clear();
    var placed := Place(Field(fen, 0), Cursor(7, 0, cleared.squares));
    assert placed.grid == b.squares by {
      PlacementDecodes(b.squares);
    }
    var turn := if Field(fen, 1) == "w" then White else Black;
    assert turn == b.turn by {
      TurnFieldParses(b.turn);
    }
    var withRights := ScanCastling(Field(fen, 2), cleared.(squares := placed.grid, turn := turn));
    assert withRights == b.(epSquare := SqNone, halfMoveClock := 0, fullMoveNumber := 1) by {
      CastlingFieldScans(b, cleared.(squares := placed.grid, turn := turn));
    }
    var ep := ParseEp(Field(fen, 3));
    assert ep == b.epSquare by {
      EpFieldParses(b);
    }
    assert ParseCounter(Field(fen, 4), cleared.halfMoveClock) == Some(b.halfMoveClock) by {
      StoiOfIntToString(b.halfMoveClock);
    }
    assert ParseCounter(Field(fen, 5), cleared.fullMoveNumber) == Some(b.fullMoveNumber) by {
      StoiOfIntToString(b.fullMoveNumber);
    }
    assert ParseFen(fen) ==
      Some(withRights.(epSquare := ep, halfMoveClock := b.halfMoveClock, fullMoveNumber := b.fullMoveNumber));
  }

  /** `parseFEN` reads back exactly the board `toFEN` wrote, for every
      board FEN can describe. */
  lemma ParseToFen(b: Board)
    requires WellFormed(b)
    ensures ParseFen(ToFen(b)) == Some(b)
  {
    ToFenFields(b);
    ParseFenOfFields(ToFen(b), b);
  }

  // ---------------------------------------------------------------------
  // Shape of the text written
  // ---------------------------------------------------------------------

  /** The files a placement text covers: a digit counts its value, any
      other character one file. */
  function Width(s: string): int {
    if |s| == 0 then 0 else (if IsDigit(s[0]) then DigitValue(s[0]) else 1) + Width(s[1..])
  }

  predicate NoAdjacentDigits(s: string) {
    forall i :: 0 <= i < |s| - 1 ==> !(IsDigit(s[i]) && IsDigit(s[i + 1]))
  }

  lemma {:induction false} WidthAppend(a: string, b: string)
    ensures Width(a + b) == Width(a) + Width(b)
    decreases |a|
  {
    if |a| == 0 {
      assert a + b == b;
    } else {
      assert (a + b)[1..] == a[1..] + b;
      WidthAppend(a[1..], b);
    }
  }

  lemma NoAdjacentDigitsAppend(a: string, b: string)
    requires NoAdjacentDigits(a) && NoAdjacentDigits(b)
    requires |a| > 0 ==> !IsDigit(a[|a| - 1])
    ensures NoAdjacentDigits(a + b)
  {
    var s := a + b;
    forall i | 0 <= i < |s| - 1
      ensures !(IsDigit(s[i]) && IsDigit(s[i + 1]))
    {
      if i >= |a| {
        assert s[i] == b[i - |a|] && s[i + 1] == b[i + 1 - |a|];
      }
    }
  }

  /** A rank's text covers the rank's remaining squares plus the pending
      run. */
  lemma {:induction false} EncodeRowWidth(row: seq<Piece>, run: nat)
    requires |row| + run <= 8
    ensures Width(EncodeRow(row, run)) == |row| + run
    decreases |row|
  {
    var prefix := if run > 0 then [DigitChar(run)] else "";
    assert Width(prefix) == run by {
      if run > 0 {
        assert prefix[1..] == "";
      }
    }
    if |row| == 0 {
    } else if row[0].kind == Empty {
      EncodeRowWidth(row[1..], run + 1);
    } else {
      var letter := [PieceChar(row[0])];
      EncodeRowWidth(row[1..], 0);
      assert Width(letter) == 1 by {
        assert letter[1..] == "";
      }
      WidthAppend(prefix, letter);
      WidthAppend(prefix + letter, EncodeRow(row[1..], 0));
    }
  }

  /** A rank's text never writes two counts in a row. */
  lemma {:induction false} EncodeRowNoAdjacentDigits(row: seq<Piece>, run: nat)
    requires |row| + run <= 8
    ensures NoAdjacentDigits(EncodeRow(row, run))
    decreases |row|
  {
    if |row| == 0 {
    } else if row[0].kind == Empty {
      EncodeRowNoAdjacentDigits(row[1..], run + 1);
    } else {
      var prefix := if run > 0 then [DigitChar(run)] else "";
      var head := prefix + [PieceChar(row[0])];
      EncodeRowNoAdjacentDigits(row[1..], 0);
      assert NoAdjacentDigits(head);
      NoAdjacentDigitsAppend(head, EncodeRow(row[1..], 0));
    }
  }

  /** Every rank `toFEN` writes is eight files wide, with no two counts
      adjacent and no '/' inside it. */
  lemma RankTextShape(g: Grid, r: int)
    requires 0 <= r < 8
    ensures Width(RankText(g, r)) == 8
    ensures NoAdjacentDigits(RankText(g, r))
    ensures '/' !in RankText(g, r)
  {
    EncodeRowWidth(g[8 * r .. 8 * r + 8], 0);
    EncodeRowNoAdjacentDigits(g[8 * r .. 8 * r + 8], 0);
  }

  lemma {:induction false} RanksFromSlashes(g: Grid, r: int)
    requires 0 <= r < 8
    ensures multiset(RanksFrom(g, r))['/'] == r
    decreases r
  {
    var t := RankText(g, r);
    RankTextShape(g, r);
    assert multiset(t)['/'] == 0 by {
      assert '/' !in multiset(t);
    }
    if r > 0 {
      var rest := RanksFrom(g, r - 1);
      RanksFromSlashes(g, r - 1);
      assert RanksFrom(g, r) == t + ("/" + rest);
      assert multiset(t + ("/" + rest)) == multiset(t) + (multiset("/") + multiset(rest));
    } else {
      assert RanksFrom(g, r) == t + "";
      assert t + "" == t;
    }
  }

  /** The text `toFEN` writes for a well-formed board has six fields; the
      placement has eight ranks separated by seven '/', the castling field
      is "-" exactly when no right is held and the en-passant field exactly
      when there is no square. */
  lemma ToFenShape(b: Board)
    requires WellFormed(b)
    ensures |Tokens(ToFen(b))| == 6
    ensures multiset(Field(ToFen(b), 0))['/'] == 7
    ensures Field(ToFen(b), 1) == (if b.turn == White then "w" else "b")
    ensures Field(ToFen(b), 2) == "-" <==> !AnyCastling(b)
    ensures Field(ToFen(b), 3) == "-" <==> b.epSquare == SqNone
  {
    FenFieldsAreTokens(b);
    ToFenFields(b);
    RanksFromSlashes(b.squares, 7);
  }
}

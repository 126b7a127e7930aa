# Chess analysis core in Dafny

This project models the core of ChessAiMoveAnalyser, a web app for playing chess with an engine analysing each move. The model covers five parts.

- **The C++ engine's board.** `Piece` and `Move` and the coordinate notation moves print in ("e2e4", "e7e8q"). Reading and writing Forsyth-Edwards Notation (FEN; section 16.1 of the PGN standard). Applying a move. All in `chess_types.dfy`, `board.dfy` and `fen.dfy`.
- **The engine's move generator.** Pseudo-legal moves and the attacked-square test (`move_generator.dfy`).
- **The engine's command line and JSON output.** The `--fen`/`--depth` loop and the `topMoves` array (`engine_main.dfy`).
- **The backend's `move` socket handler.** A pure function from (inbound event, engine outcome, ledger outcome) to (engine request, emitted messages, ledger pushes) (`socket_handler.dfy`).
- **The game-room page.** The evaluation text and bar, the filter that drops an analysis of a position the board has left, the guard before the move lookup, and the reset button (`game_room.dfy`).

`ctext.dfy` holds the C and C++ library pieces the engine leans on:
- character classes, as in `<cctype>`;
- C++ truncating `/` and `%`;
- `std::stoi`;
- whitespace tokenising, as `operator>>` on a `std::stringstream` does it;
- integer printing.

`wrappers.dfy` holds `Option`, which stands for an absent token, a thrown `std::stoi`, or JavaScript's `undefined`/`null`.

## Encoding

`Constants.h` is not part of this model, so the encoding is fixed here:
- squares run a1 = 0, b1 = 1, ..., h8 = 63, with file `sq % 8` and rank `sq / 8`;
- `SQ_NONE` is 64;
- `PieceType` is {Empty, Pawn, Knight, Bishop, Rook, Queen, King};
- `Color` is {White, Black, NoColor}.

The board is an immutable 64-element sequence. `parseFEN`, `toFEN` and `makeMove` are pure functions over it. `parseFEN` always starts from `clear()`, so it is a function of the text alone; it returns `None` exactly when `std::stoi` would throw on a counter field.

## Where the code and its design description differ

The model follows the code.
- The design says a ledger failure is never shown to the client. In the handler, the ledger update is awaited inside the same `try`. A failure there is reported as an `error` message after the `analysis` message was already sent (`SocketHandler.LedgerFailureFollowsAnalysis`).
- The design places the staleness check on the server. In the code, the only such check is the client's `analysis` listener (`GameRoom.OnAnalysis`).
- The design calls the ledger write fire-and-forget. The handler awaits it.
- The castling comment in the generator says the path must not be attacked. The code tests only the rights and the empty squares, and `generateLegalMoves` does not filter. Castling moves are also produced for a king on any square, always from e1/e8 (`MoveGenerator.CastlingOffered`).

## Model

| member | source | states |
|---|---|---|
| ChessTypes.SameMoveIsEquality | engine-cpp/include/Board.h:23-29 | `operator==` holds exactly when the two moves are the same value; a two-argument `Move(f, t)` equals a move iff that move has no promotion |
| ChessTypes.SquareText | engine-cpp/src/Board.cpp:9-14 | a square prints as two characters; for squares on the board they are a file letter a-h and a rank digit 1-8 that decode back to the square |
| ChessTypes.PromotionSuffix | engine-cpp/src/Board.cpp:16-21 | queen, rook, bishop and knight add exactly "q", "r", "b" and "n"; any other type adds nothing |
| ChessTypes.MoveToString | engine-cpp/src/Board.cpp:7-22 | the text is "none" iff either end is SQ_NONE; otherwise it is the from square, the to square, and after them exactly the promotion letter of the move (nothing when none is set) |
| ChessTypes.NullAndQuietMoveText | engine-cpp/include/Board.h:23-24 | the default move prints "none"; a move built from two on-board squares prints four characters |
| CText.Stoi | engine-cpp/src/Board.cpp:84-85 | `std::stoi` succeeds iff at least one digit follows the optional spaces and sign and the signed value of those digits fits a 32-bit int, and then returns exactly that signed value; otherwise it throws (`None`) |
| CText.StoiOfIntToString | engine-cpp/src/Board.cpp:132 | every int from INT_MIN to INT_MAX, negative ones included, that the stream prints reads back through `std::stoi` as itself |
| CText.TokensOfSeparated | engine-cpp/src/Board.cpp:40-42 | reading whitespace-separated fields from "a b" yields the word a followed by the fields of b |
| Boards.Clear | engine-cpp/src/Board.cpp:29-36 | every square is `Piece()` (empty, no colour); White to move; no castling rights; no en-passant square; counters 0 and 1; the result is a well-formed board |
| Boards.RevokeRights | engine-cpp/src/Board.cpp:149-187 | each castling flag survives iff it was set, and no rook was captured on its corner, and the king did not leave e1/e8, and no piece left that corner; nothing else changes |
| Boards.SkippedSquare | engine-cpp/src/Board.cpp:198-202 | the new en-passant square is set exactly for a pawn moving 16 squares; it is then the on-board midpoint, in the mover's file |
| Boards.MovedGrid | engine-cpp/src/Board.cpp:136-196 | the squares after a move: the mover on the target (promoted when asked), its square empty, the en-passant victim removed, the castling rook moved, all other squares unchanged; a move with from == to leaves that square empty (or an uncoloured promotion piece), because the origin is cleared after the mover is placed |
| Boards.MakeMove | engine-cpp/src/Board.cpp:136-196 | the mover lands on the target, promoted when asked, and its square empties; en passant removes the pawn behind the target; a castling king move carries the corner rook to the square the king passed; every other square is unchanged; a move with from == to empties that square, as the origin is cleared after placing |
| Boards.MakeMoveClocks | engine-cpp/src/Board.cpp:198-211 | the side to move flips; the full-move number grows only after Black's move; the half-move clock resets on a pawn move or any capture, en passant included, else grows by one; the en-passant square is the midpoint exactly after a two-rank pawn push |
| Boards.MakeMoveCastlingRights | engine-cpp/src/Board.cpp:149-187 | castling rights are only ever cleared, never set; a king leaving e1/e8 clears both of its side's rights; a piece leaving, or a rook captured on, a corner clears that corner's right |
| Boards.MakeMovePreservesWellFormed | engine-cpp/src/Board.cpp:136-212 | a move of the side to move's piece to another square keeps the board well formed (describable by FEN), given counters below INT_MAX |
| Fen.PieceChar | engine-cpp/src/Board.cpp:101-108 | each occupied square prints as a letter, upper case iff the piece is White's |
| Fen.EncodeRowWidth | engine-cpp/src/Board.cpp:91-112 | a rank's text covers exactly as many files as it encodes: digits count their value, letters one |
| Fen.EncodeRowNoAdjacentDigits | engine-cpp/src/Board.cpp:91-112 | a run of empty squares is written as a single count, so no two digits are adjacent |
| Fen.RankTextShape | engine-cpp/src/Board.cpp:90-114 | every rank written is eight files wide, has no adjacent digits, and contains no '/' |
| Fen.RanksFromSlashes | engine-cpp/src/Board.cpp:113 | the placement field from rank r down holds exactly r '/' separators |
| Fen.CastlingField | engine-cpp/src/Board.cpp:118-123 | the castling field is "-" iff no right is held; otherwise each of K, Q, k, q appears iff its flag is set |
| Fen.EpField | engine-cpp/src/Board.cpp:125-130 | the en-passant field is "-" iff the square is SQ_NONE |
| Fen.FenFieldsAreTokens | engine-cpp/src/Board.cpp:88-134 | for a well-formed board the text splits back into exactly the six fields written |
| Fen.ToFenShape | engine-cpp/src/Board.cpp:88-134 | the text has six fields; the placement has seven '/'; the turn field is "w" or "b" by side; castling is "-" iff no right; en passant is "-" iff SQ_NONE |
| Fen.PlaceChar | engine-cpp/src/Board.cpp:44-66 | one placement character writes at most the square under the cursor; nothing is written off the eighth file or below rank 1; a letter on the board writes its piece; '/' moves to file 0 of the next rank down, a digit advances the file by its value, any other character advances it by one whether or not it wrote |
| Fen.OverfullRankDropped | engine-cpp/src/Board.cpp:49-65 | a piece letter after "8" on a rank is past the eighth file: the cursor moves on but the array is left as it was |
| Fen.ScanCastling | engine-cpp/src/Board.cpp:71-76 | each flag ends set iff it was set or its letter occurs; nothing else changes |
| Fen.ParseEp | engine-cpp/src/Board.cpp:78-82 | "-" gives SQ_NONE |
| Fen.ParseCounter | engine-cpp/src/Board.cpp:84-85 | an absent counter keeps its default; a present one is `std::stoi` of its text |
| Fen.ParseFen | engine-cpp/src/Board.cpp:38-86 | the side is White iff the second field is exactly "w", otherwise Black; each castling flag is set iff its letter occurs in the third field; "-" gives no en-passant square; absent counters stay 0 and 1; the parse fails iff a present counter is not a number |
| Fen.ToFenFields | engine-cpp/src/Board.cpp:88-134 | the text written for a well-formed board has, field by field, the placement, turn, castling, en-passant and counter texts |
| Fen.TurnFieldParses | engine-cpp/src/Board.cpp:69 | the turn letter written is read back as the side that wrote it |
| Fen.CastlingFieldScans | engine-cpp/src/Board.cpp:71-76 | scanning the castling field written, over a board with no rights, restores exactly the rights it was written from |
| Fen.EpFieldParses | engine-cpp/src/Board.cpp:78-82 | the en-passant field written reads back as the same square, or SQ_NONE |
| Fen.EncodeRowDecodes | engine-cpp/src/Board.cpp:44-67 | reading one rank's text fills that rank with the pieces it was written from and leaves the cursor on the rank |
| Fen.PlacementDecodes | engine-cpp/src/Board.cpp:44-67 | the placement field written for a well-formed grid reads back, over a cleared board, as that grid |
| Fen.ParseFenOfFields | engine-cpp/src/Board.cpp:38-86 | text whose six fields are those written for a well-formed board parses back as that board |
| Fen.ParseToFen | engine-cpp/src/Board.cpp:38-134 | parsing the text written for any well-formed board gives back that board |
| MoveGenerator.OnBoardIndex | engine-cpp/src/MoveGenerator.cpp:7-9 | `onBoard(r, c)` holds iff 0 <= r, c <= 7, iff 8r + c is a square whose row and column are r and c |
| MoveGenerator.QueenDirectionsAreDirections | engine-cpp/src/MoveGenerator.cpp:119-121 | the queen has eight offsets, and they, the rook's four and the bishop's four are all single king steps, so every ray walk leaves the board |
| MoveGenerator.PawnStep | engine-cpp/src/MoveGenerator.cpp:28-34 | a pawn step gives promotions iff it reaches the first or last row, and then exactly the four in order Q, R, B, N; elsewhere exactly one plain move |
| MoveGenerator.PawnDoubleStep | engine-cpp/src/MoveGenerator.cpp:35-41 | a second-row advance leaves the starting row over an empty square onto an empty square |
| MoveGenerator.PawnPushes | engine-cpp/src/MoveGenerator.cpp:25-43 | pushes land on empty squares; they promote exactly on the last rows; a two-row push is a double push |
| MoveGenerator.PawnCapture | engine-cpp/src/MoveGenerator.cpp:44-63 | a diagonal move lands on an enemy piece or on the en-passant square; it promotes on the last rows unless it is the en-passant move |
| MoveGenerator.PawnMovesOk | engine-cpp/src/MoveGenerator.cpp:23-63 | pawn moves with those properties satisfy every generated-move safety condition |
| MoveGenerator.PawnMoves | engine-cpp/src/MoveGenerator.cpp:23-63 | every move of a pawn of the side to move is safe, leaves its square, and promotions come in blocks of four |
| MoveGenerator.PawnsGenerated | engine-cpp/src/MoveGenerator.cpp:23-63 | a pawn of the side to move is offered the push onto the empty square ahead, the double push from its starting row over two empty squares, and the diagonal step onto an enemy piece (four promotions on the last rows) or else onto the en-passant square, all in the generated list |
| MoveGenerator.LeaperMoves | engine-cpp/src/MoveGenerator.cpp:64-87 | knight and king steps land on the board, off the side to move's pieces; every offset that does is generated |
| MoveGenerator.CastlingMoves | engine-cpp/src/MoveGenerator.cpp:88-103 | only the side to move's castling moves are produced, and their target squares are empty |
| MoveGenerator.Ray | engine-cpp/src/MoveGenerator.cpp:119-147 | every move along one ray leaves the slider's square for an on-board square that is empty or holds an enemy, and promotes to nothing |
| MoveGenerator.RayWalks | engine-cpp/src/MoveGenerator.cpp:122-146 | the j-th move of a ray goes to the j-th square of the walk in that direction |
| MoveGenerator.RayPassesEmpty | engine-cpp/src/MoveGenerator.cpp:122-146 | every square of a ray before its last is empty; the last is empty or an enemy |
| MoveGenerator.RayStops | engine-cpp/src/MoveGenerator.cpp:122-146 | a ray ends after capturing an enemy, at the board's edge, or just before one of the mover's own pieces, so the first occupied square is included iff it is an enemy |
| MoveGenerator.SlideMoves | engine-cpp/src/MoveGenerator.cpp:104-148 | slider moves land on empty or enemy squares and promote to nothing |
| MoveGenerator.SlideMovesContainRays | engine-cpp/src/MoveGenerator.cpp:135-147 | every ray of every direction is part of the slide |
| MoveGenerator.SlideDirections | engine-cpp/src/MoveGenerator.cpp:106-121 | the directions used by rook, bishop and queen are unit steps |
| MoveGenerator.OfficerMovesOk | engine-cpp/src/MoveGenerator.cpp:64-148 | non-pawn moves with the common target properties satisfy the safety conditions and have no promotions |
| MoveGenerator.KnightMoves | engine-cpp/src/MoveGenerator.cpp:64-75 | knight moves leave the knight's square onto the board, never onto the side to move's pieces |
| MoveGenerator.KingMoves | engine-cpp/src/MoveGenerator.cpp:76-103 | king moves leave the king's square or are castling moves, onto the board, never onto the side to move's pieces |
| MoveGenerator.SliderMoves | engine-cpp/src/MoveGenerator.cpp:104-148 | rook, bishop and queen moves leave their square onto the board, never onto the side to move's pieces |
| MoveGenerator.OfficerMoves | engine-cpp/src/MoveGenerator.cpp:64-148 | a knight, king, rook, bishop or queen's moves are safe, have no promotions, and leave its square unless castling |
| MoveGenerator.PieceMoves | engine-cpp/src/MoveGenerator.cpp:15-149 | moves are produced only for the side to move's pieces; all are safe, leave the square unless castling, and promotions come grouped |
| MoveGenerator.MovesFrom | engine-cpp/src/MoveGenerator.cpp:15-150 | the moves of squares i..63 all satisfy the safety conditions |
| MoveGenerator.MovesFromGrouped | engine-cpp/src/MoveGenerator.cpp:15-150 | the square-by-square list keeps promotions in blocks of four |
| MoveGenerator.MovesFromContains | engine-cpp/src/MoveGenerator.cpp:15-150 | every move of every later square is in the list |
| MoveGenerator.PseudoLegalMoves | engine-cpp/src/MoveGenerator.cpp:11-151 | every generated move starts on the side to move's piece (or is castling), lands on the board and not on its own piece (except the en-passant square), promotes only a pawn reaching the first or last row, and moves a pawn two rows only as a double push over empty squares |
| MoveGenerator.PseudoLegalPromotionsGrouped | engine-cpp/src/MoveGenerator.cpp:28-34 | promotions in the generated list come as blocks of Q, R, B, N for one from/to pair; all other moves have none |
| MoveGenerator.GenerateLegalMoves | engine-cpp/src/MoveGenerator.cpp:221-227 | the legal list is the pseudo-legal list, unfiltered |
| MoveGenerator.CastlingMovesGenerated | engine-cpp/src/MoveGenerator.cpp:76-103 | with a king of the side to move on the board, every castling move is in the generated list |
| MoveGenerator.CastlingOffered | engine-cpp/src/MoveGenerator.cpp:88-103 | with a king of the side to move anywhere, each held right whose in-between squares are empty yields its castling move; neither the king's square nor attacks are checked |
| MoveGenerator.SlidesGenerated | engine-cpp/src/MoveGenerator.cpp:104-148 | every move along every ray of a rook, bishop or queen of the side to move is generated |
| MoveGenerator.IsSquareAttacked | engine-cpp/src/MoveGenerator.cpp:153-205 | the answer is true iff a knight or king of the attacker is a step away, or an attacking pawn is diagonally behind, or the first piece on some ray is the attacker's rook/queen (orthogonal) or bishop/queen (diagonal) |
| MoveGenerator.LeaperHit | engine-cpp/src/MoveGenerator.cpp:155-174 | the knight or king loop returns true iff such a piece is one offset away |
| MoveGenerator.PawnHit | engine-cpp/src/MoveGenerator.cpp:175-183 | the pawn loop returns true iff an attacker's pawn stands on one of the two diagonals it captures from |
| MoveGenerator.SlidersHit | engine-cpp/src/MoveGenerator.cpp:184-204 | the slider loop returns true iff some ray's first blocker is an attacker moving along that ray |
| MoveGenerator.SliderHit | engine-cpp/src/MoveGenerator.cpp:189-202 | one ray's walk returns true iff its first occupied square holds an attacker moving along it |
| MoveGenerator.FirstBlockerUnique | engine-cpp/src/MoveGenerator.cpp:189-200 | a ray has at most one first blocker |
| EngineMain.ParseArgsLoop | engine-cpp/src/main.cpp:10-20 | the index loop computes the same configuration as the argument scan, failing exactly when `std::stoi` throws |
| EngineMain.ScanAppend | engine-cpp/src/main.cpp:13-20 | arguments split where the loop is not inside a flag/value pair can be scanned one part after the other |
| EngineMain.NoFlagsKeepDefaults | engine-cpp/src/main.cpp:13-20 | with no recognised flag the configuration is unchanged |
| EngineMain.DefaultsWithoutArguments | engine-cpp/src/main.cpp:10-11 | with no arguments the engine analyses the starting position at depth 4 |
| EngineMain.FlagTakesNextArgument | engine-cpp/src/main.cpp:15-19 | `--fen X` sets the position to X and `--depth N` the depth to `stoi(N)`; the value is consumed even when it looks like a flag |
| EngineMain.UnknownArgumentSkipped | engine-cpp/src/main.cpp:13-20 | any argument that is not a flag is skipped |
| EngineMain.LastOccurrenceWins | engine-cpp/src/main.cpp:13-20 | a repeated flag: the last one the loop reaches decides |
| EngineMain.TrailingFlagIgnored | engine-cpp/src/main.cpp:15-17 | a flag with nothing after it changes nothing |
| EngineMain.WriteTopMoves | engine-cpp/src/main.cpp:32-38 | the output loop writes each entry on its own line, with a comma after every entry but the last |
| EngineMain.TopMovesShape | engine-cpp/src/main.cpp:32-38 | an empty list prints as just the two bracket lines; one entry prints without a comma |
| SocketHandler.MovesOf | backend/src/sockets/socketHandler.js:19 | `pv` has the top moves' length and order, each element the entry's `move` |
| SocketHandler.Normalise | backend/src/sockets/socketHandler.js:15-20 | `bestMove` is the engine's when truthy, else ""; `evaluation` is the engine's unless absent (0 kept), else 0; `depth` is the engine's unless absent, else 3; `pv` lists the top moves' moves, empty when absent |
| SocketHandler.ErrorText | backend/src/sockets/socketHandler.js:44 | the error text is never empty: the failure's message, or "Analysis error" |
| SocketHandler.Record | backend/src/sockets/socketHandler.js:30-41 | a push happens iff the event has a truthy gameId, a move, and the store succeeds; it carries from/to, the fen and the emitted evaluation; a missing move or a failed store gives one error |
| SocketHandler.Handle | backend/src/sockets/socketHandler.js:10-45 | the engine is always asked at depth 3; an engine failure gives exactly one error message and no push; success emits the analysis with the inbound fen and move first, and an error follows it exactly when the game is named and the move is missing (the TypeError text) or the store fails (its message); otherwise the analysis is the only message |
| SocketHandler.OneAnalysisPerSuccess | backend/src/sockets/socketHandler.js:24-28 | one `analysis` message is emitted iff the engine answers |
| SocketHandler.LedgerDoesNotAlterAnalysis | backend/src/sockets/socketHandler.js:24-41 | the ledger outcome changes neither the engine request nor the analysis message |
| SocketHandler.PushIffGameNamed | backend/src/sockets/socketHandler.js:30-40 | a push happens iff the engine answered, gameId is truthy, a move is present and the store succeeds; its evaluation is the one emitted |
| SocketHandler.LedgerFailureFollowsAnalysis | backend/src/sockets/socketHandler.js:24-44 | a failed ledger update after a successful analysis yields the analysis message followed by one error message |
| SocketHandler.NormaliseIdempotent | backend/src/sockets/socketHandler.js:15-20 | an analysis fed back through the defaults comes out unchanged |
| SocketHandler.ZeroEvaluationKept | backend/src/sockets/socketHandler.js:16-17 | an evaluation of 0 survives the `??` default, while a missing and an empty best move both become "" under `||` |
| GameRoom.EvalDescription | frontend/src/pages/GameRoom.jsx:14-21 | each of the seven texts is given exactly on its band: \|s\| < 0.2 equal; s >= 3 and 1 <= s < 3 for White; s <= -3 and -3 < s <= -1 for Black; the slight bands in between |
| GameRoom.EvalDescriptionMonotone | frontend/src/pages/GameRoom.jsx:14-21 | a higher score never reads worse for White |
| GameRoom.EvalDescriptionSymmetric | frontend/src/pages/GameRoom.jsx:14-21 | negating the score swaps the colours in the text, boundaries included |
| GameRoom.EvalBarWidth | frontend/src/pages/GameRoom.jsx:195 | the bar's width always lies in [5, 95] |
| GameRoom.EvalBarShape | frontend/src/pages/GameRoom.jsx:195 | the bar is 50 + 5s for scores in [-9, 9], pinned at 95 or 5 beyond, and monotone |
| GameRoom.OnAnalysis | frontend/src/pages/GameRoom.jsx:67-77 | a message without analysis, or whose fen is present and differs from the live game's, changes nothing; otherwise analysis and score are replaced, the score defaulting to 0; the position, history and game id never change |
| GameRoom.ShownAnalysisIsCurrent | frontend/src/pages/GameRoom.jsx:68-75 | a newly shown analysis belongs to the live position or named none |
| GameRoom.OnAnalysisIdempotent | frontend/src/pages/GameRoom.jsx:67-77 | delivering an event twice is the same as once |
| GameRoom.Receive | frontend/src/pages/GameRoom.jsx:75 | the analysis the server emits always carries its evaluation |
| GameRoom.ServerAnswerShown | frontend/src/pages/GameRoom.jsx:67-77 | an engine answer for the live position shows the engine's evaluation (0 if it gave none); one for another position changes nothing |
| GameRoom.ResetGame | frontend/src/pages/GameRoom.jsx:130-137 | the game returns to the start position with no game id, history or analysis, and score 0 |
| GameRoom.ResetForgets | frontend/src/pages/GameRoom.jsx:130-137 | the reset state does not depend on the state before it; a late analysis of any other position is dropped |
| GameRoom.LowerText | frontend/src/pages/GameRoom.jsx:28-29 | lowering keeps the length and lowers each ASCII capital |
| GameRoom.MoveDisplay | frontend/src/pages/GameRoom.jsx:25-30 | a missing or shorter-than-4 text is shown as is ("" when missing); otherwise it asks for a lookup of the lower-cased first two characters as from, the next two as to, and the lower-cased fifth character as promotion exactly when the text has 5 or more characters |
| GameRoom.MoveDisplayOfMoveText | frontend/src/pages/GameRoom.jsx:25-30 | the text the engine prints for an on-board move splits back into its squares and promotion letter |
| GameRoom.MoveDisplayEdgeCases | frontend/src/pages/GameRoom.jsx:25 | the engine's "none" passes the guard as squares "no" and "ne"; an empty or missing best move is shown as "" |

## Left out

- Process spawning, output accumulation, the 30-second timer and `JSON.parse` in the engine service (backend/src/services/EngineService.js): these are I/O, concurrency and a foreign call. The handler sees them only as an engine outcome: a result, or a failure with an optional message.
- The engine's search and evaluation (engine-cpp/src/Engine.cpp): they use `double` scores with infinities, and call `isInCheck` and `getKingSquare`, whose bodies are not part of this model. `Engine::analyze` is not modelled. Scores in the JSON output are taken as already-printed text.
- The free `makeMove` in engine-cpp/src/MoveGenerator.cpp:208-216: a stub that returns its board unchanged and is not used by the generator.
- The `bestMove`, `evaluation` and `depth` lines of the engine's JSON output (engine-cpp/src/main.cpp:28-31, 39): their content is the search result and stream float formatting. Only the `topMoves` array is modelled.
- SAN conversion and the explanation text in `getMoveDisplay` (frontend/src/pages/GameRoom.jsx:26-42): they depend on the chess.js library. The model stops at the guard and the slicing.
- Socket connection wiring, React rendering and effects, `onPieceDrop`'s game creation, and the Express, Mongoose and JWT code: transport and third-party plumbing.
- Board.h `getPiece`/`getTurn` accessors: plain field reads, modelled as sequence indexing.
- Text as bytes: strings are sequences of `char`, and the model is faithful only for ASCII text. The C++ works on `char` bytes, which are signed on the usual targets. `isdigit`, `isupper` and `tolower` on a negative byte are undefined behaviour, so non-ASCII FEN text has no defined meaning there. Likewise `epPart[0] - 'a'` on a non-ASCII byte yields a byte value that the model does not reproduce.
- CText.CharCodeAt: a read one past the end of a `std::string` gives NUL, and the model uses NUL for every read past the end. For an empty en-passant token the C++ reads `epPart[1]`, two past the end. That read is undefined behaviour; the model still gives NUL there.
- GameRoom.MoveDisplay: JavaScript's `uci.length` and slicing count UTF-16 code units. The model counts `char`s, so the two agree only on text without surrogate pairs.
- CText.Stoi: models `std::stoi` for ASCII input in base 10 only; locales and non-ASCII digits are not modelled.
- GameRoom.LowerText: lowers ASCII capitals only, whereas JavaScript's `toLowerCase` covers all of Unicode.
- GameRoom.EvalDescription: scores are `real`; JavaScript `NaN` and infinities are not modelled (a `NaN` score would read "Black slightly better").
- GameRoom.MoveDisplay: takes the best move as an optional string; a non-string JSON value is not modelled.
- SocketHandler.Normalise: engine fields are taken at the types the engine prints (string, number, list of entries). Other JSON shapes are not modelled.
- SocketHandler.Handle: the `TypeError` text for an event without a move is V8's wording, fixed as a constant; console logging is left out.
- Boards.MakeMove: requires both ends of the move, and the pawn an en-passant capture removes, to be on the board. Outside that, the C++ indexes outside its array, which is undefined behaviour.
- Boards.MakeMovePreservesWellFormed: assumes counters below INT_MAX; the C++ `int` overflow beyond that is not modelled.

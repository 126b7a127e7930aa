/** The pure parts of the game-room page (frontend/src/pages/GameRoom.jsx):
    the evaluation text and bar, the listener that drops analyses of a
    position the board has left, the guard in front of the move lookup,
    and the reset button. */
module GameRoom {
  import opened Wrappers
  import opened CText
  import opened ChessTypes
  import SocketHandler

  // ---------------------------------------------------------------------
  // Evaluation text
  // ---------------------------------------------------------------------

  function Abs(x: real): (r: real)
    ensures r >= 0.0 && (r == x || r == -x)
  {
    if x < 0.0 then -x else x
  }

  const Equal: string := "Position is equal"
  const WhiteWinning: string := "White is winning"
  const WhiteBetter: string := "White is better"
  const BlackWinning: string := "Black is winning"
  const BlackBetter: string := "Black is better"
  const WhiteSlightly: string := "White slightly better"
  const BlackSlightly: string := "Black slightly better"

  /** `getEvalDescription`: the checks in order, the first that holds
      decides. The contract gives each text as the band of scores it
      covers; the bands partition the line. */
  function EvalDescription(score: real): (d: string)
    ensures d == Equal <==> -0.2 < score < 0.2
    ensures d == WhiteWinning <==> score >= 3.0
    ensures d == WhiteBetter <==> 1.0 <= score < 3.0
    ensures d == BlackWinning <==> score <= -3.0
    ensures d == BlackBetter <==> -3.0 < score <= -1.0
    ensures d == WhiteSlightly <==> 0.2 <= score < 1.0
    ensures d == BlackSlightly <==> -1.0 < score <= -0.2
  {
    if Abs(score) < 0.2 then Equal
    else if score >= 3.0 then WhiteWinning
    else if score >= 1.0 then WhiteBetter
    else if score <= -3.0 then BlackWinning
    else if score <= -1.0 then BlackBetter
    else if score > 0.0 then WhiteSlightly
    else BlackSlightly
  }

  /** The texts from Black's best to White's best. */
  function Standing(d: string): int {
    if d == BlackWinning then 0
    else if d == BlackBetter then 1
    else if d == BlackSlightly then 2
    else if d == Equal then 3
    else if d == WhiteSlightly then 4
    else if d == WhiteBetter then 5
    else 6
  }

  /** A higher score never reads as a worse position for White. */
  lemma EvalDescriptionMonotone(x: real, y: real)
    requires x <= y
    ensures Standing(EvalDescription(x)) <= Standing(EvalDescription(y))
  {
  }

  /** Negating the score swaps the colours in the text, boundaries
      included: the checks use `>=` for White and `<=` for Black. */
  lemma EvalDescriptionSymmetric(x: real)
    ensures Standing(EvalDescription(-x)) == 6 - Standing(EvalDescription(x))
  {
  }

  // ---------------------------------------------------------------------
  // Evaluation bar
  // ---------------------------------------------------------------------

  function Min(a: real, b: real): real { if a <= b then a else b }

  function Max(a: real, b: real): real { if a >= b then a else b }

  /** The bar's width in percent: `min(max(50 + 5 * score, 5), 95)`. */
  function EvalBarWidth(score: real): (w: real)
    ensures 5.0 <= w <= 95.0
  {
    Min(Max(50.0 + score * 5.0, 5.0), 95.0)
  }

  /** The bar is linear in the score between -9 and 9, pinned at its ends
      outside that range, and never shrinks as the score grows. */
  lemma EvalBarShape(x: real, y: real)
    ensures -9.0 <= x <= 9.0 ==> EvalBarWidth(x) == 50.0 + 5.0 * x
    ensures x >= 9.0 ==> EvalBarWidth(x) == 95.0
    ensures x <= -9.0 ==> EvalBarWidth(x) == 5.0
    ensures x <= y ==> EvalBarWidth(x) <= EvalBarWidth(y)
    ensures EvalBarWidth(0.0) == 50.0
  {
  }

  // ---------------------------------------------------------------------
  // Room state and the analysis listener
  // ---------------------------------------------------------------------

  /** What the client receives as `analysis`: its fields as JSON values,
      `None` where absent or `null`. */
  datatype Received = Received(bestMove: Option<string>, evaluation: Option<real>, depth: Option<int>)

  /** An `analysis` event: `fen` and `analysis` may be absent. */
  datatype AnalysisEvent = AnalysisEvent(fen: Option<string>, analysis: Option<Received>)

  /** The page's state: the chess.js game's FEN (`liveFen`), the board's
      `position`, the move list, the game id, the analysis shown and the
      score. */
  datatype Room = Room(
    liveFen: string,
    position: string,
    history: seq<string>,
    gameId: Option<string>,
    analysis: Option<Received>,
    evalScore: real)

  predicate Truthy(s: Option<string>) { s.Some? && s.value != "" }

  /** An analysis is stale when it names a position and that is not the
      one the game is in now. */
  predicate Stale(room: Room, ev: AnalysisEvent) {
    Truthy(ev.fen) && ev.fen.value != room.liveFen
  }

  /** The `analysis` listener. Both state updates apply the same staleness
      test, so they either both take the new analysis or both keep the old
      state. */
  function OnAnalysis(room: Room, ev: AnalysisEvent): (r: Room)
    ensures r.liveFen == room.liveFen && r.position == room.position
    ensures r.history == room.history && r.gameId == room.gameId
    ensures ev.analysis.None? || Stale(room, ev) ==> r == room
    ensures ev.analysis.Some? && !Stale(room, ev) ==>
      r.analysis == ev.analysis &&
      r.evalScore == ev.analysis.value.evaluation.GetOr(0.0)
  {
    if ev.analysis.None? then room
    else
      var analysis := if Stale(room, ev) then room.analysis else ev.analysis;
      var score := if Stale(room, ev) then room.evalScore else ev.analysis.value.evaluation.GetOr(0.0);
      room.(analysis := analysis, evalScore := score)
  }

  /** Whatever the page shows as analysis after an event belongs to the
      live position, or was there before, or came without a position. */
  lemma ShownAnalysisIsCurrent(room: Room, ev: AnalysisEvent)
    ensures OnAnalysis(room, ev).analysis == room.analysis ||
      (!Truthy(ev.fen) || ev.fen.value == room.liveFen)
  {
  }

  /** Delivering the same event twice is the same as once. */
  lemma OnAnalysisIdempotent(room: Room, ev: AnalysisEvent)
    ensures OnAnalysis(OnAnalysis(room, ev), ev) == OnAnalysis(room, ev)
  {
  }

  /** The analysis the server emits, as the client receives it. */
  function Receive(a: SocketHandler.Analysis): (r: Received)
    ensures r.evaluation == Some(a.evaluation)
  {
    Received(Some(a.bestMove), Some(a.evaluation), Some(a.depth))
  }

  /** End to end: when the engine answers for the position the page is
      in, the score shown is the engine's evaluation, or 0 if it gave
      none; an answer for another position changes nothing. */
  lemma ServerAnswerShown(room: Room, e: SocketHandler.MoveEvent, r: SocketHandler.EngineResult,
                          ledger: SocketHandler.LedgerOutcome)
    ensures
      var m := SocketHandler.Handle(e, SocketHandler.Analysed(r), ledger).emitted[0];
      var shown := OnAnalysis(room, AnalysisEvent(Some(m.fen), Some(Receive(m.analysis))));
      (e.fen == room.liveFen || e.fen == "" ==> shown.evalScore == r.evaluation.GetOr(0.0)) &&
      (e.fen != room.liveFen && e.fen != "" ==> shown == room)
  {
  }

  // ---------------------------------------------------------------------
  // Reset
  // ---------------------------------------------------------------------

  /** `resetGame`: the game back at the start, no game id, no moves, no
      analysis, score 0. */
  function ResetGame(room: Room): (r: Room)
    ensures r.liveFen == StartFen && r.position == StartFen
    ensures r.history == [] && r.gameId.None? && r.analysis.None? && r.evalScore == 0.0
  {
    Room(StartFen, StartFen, [], None, None, 0.0)
  }

  /** Resetting forgets everything about the room it started from, and an
      analysis of any other position arriving late is dropped. */
  lemma ResetForgets(a: Room, b: Room, ev: AnalysisEvent)
    ensures ResetGame(a) == ResetGame(b) == ResetGame(ResetGame(a))
    ensures Truthy(ev.fen) && ev.fen.value != StartFen ==>
      OnAnalysis(ResetGame(a), ev) == ResetGame(a)
  {
  }

  // ---------------------------------------------------------------------
  // The move-display guard
  // ---------------------------------------------------------------------

  function LowerText(s: string): (t: string)
    ensures |t| == |s|
    ensures forall i :: 0 <= i < |s| ==> t[i] == ToLower(s[i])
  {
    seq(|s|, i requires 0 <= i < |s| => ToLower(s[i]))
  }

  /** What `getMoveDisplay` does before it hands over to chess.js: shows
      the text as it is, or asks to look up a move from two squares and an
      optional promotion letter. */
  datatype Display =
    | Verbatim(san: string)
    | Lookup(from: string, to: string, promotion: Option<char>)

  /** The guard: a missing or short text is shown verbatim ("" when
      missing); otherwise characters 0-1 and 2-3 are the squares, and a
      fifth character, if any, the promotion. */
  function MoveDisplay(uci: Option<string>): (d: Display)
    ensures d.Verbatim? <==> uci.None? || |uci.value| < 4
    ensures d.Verbatim? ==> d.san == uci.GetOr("")
    ensures d.Lookup? ==>
      |d.from| == 2 && |d.to| == 2 &&
      (d.promotion.Some? <==> |uci.value| >= 5)
    ensures d.Lookup? ==>
      d.from == LowerText(uci.value[..2]) && d.to == LowerText(uci.value[2..4]) &&
      (|uci.value| >= 5 ==> d.promotion == Some(ToLower(uci.value[4])))
  {
    if uci.None? || |uci.value| < 4 then Verbatim(uci.GetOr(""))
    else
      var s := uci.value;
      Lookup(LowerText(s[0..2]), LowerText(s[2..4]),
        if |s| >= 5 then Some(ToLower(s[4])) else None)
  }

  function PromotionLetter(p: PieceType): Option<char> {
    var s := PromotionSuffix(p);
    if |s| == 1 then Some(s[0]) else None
  }

  /** The engine's move text comes back apart as the squares and promotion
      it was printed from. */
  lemma MoveDisplayOfMoveText(m: Move)
    requires OnBoardSquare(m.from) && OnBoardSquare(m.to)
    ensures MoveDisplay(Some(MoveToString(m))) ==
      Lookup(SquareText(m.from), SquareText(m.to), PromotionLetter(m.promotion))
  {
    var s := MoveToString(m);
    assert s[0..2] == SquareText(m.from);
    assert s[2..4] == SquareText(m.to);
    assert LowerText(s[0..2]) == s[0..2];
    assert LowerText(s[2..4]) == s[2..4];
    if |s| >= 5 {
      assert s[4] == PromotionSuffix(m.promotion)[0];
    }
  }

  /** The engine's "none" is four characters long and so passes the guard;
      an empty best move is shown as "". */
  lemma MoveDisplayEdgeCases()
    ensures MoveDisplay(Some(MoveToString(NullMove))) == Lookup("no", "ne", None)
    ensures MoveDisplay(Some("")) == Verbatim("")
    ensures MoveDisplay(None) == Verbatim("")
  {
    assert MoveToString(NullMove) == "none";
    assert LowerText("no") == "no";
    assert LowerText("ne") == "ne";
  }
}

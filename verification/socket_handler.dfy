/** The backend's `move` event handler (backend/src/sockets/socketHandler.js)
    as a pure function from the inbound event, what the engine did and
    what the game ledger did, to the engine request, the messages emitted
    to the client and the entries appended to the ledger. */
module SocketHandler {
  import opened Wrappers

  /** Every analysis is requested at this depth. */
  const RequestDepth: int := 3

  /** The error text used when the failure carries no message. */
  const FallbackError: string := "Analysis error"

  /** The message of the `TypeError` the JavaScript engine raises when the
      handler reads `move.from` from an absent move. */
  const MissingMoveError: string := "Cannot read properties of undefined (reading 'from')"

  /** The client's move object, as far as the handler looks into it. */
  datatype ClientMove = ClientMove(from: string, to: string, san: string)

  /** An inbound `move` event; `None` is an absent (`undefined`) field. */
  datatype MoveEvent = MoveEvent(gameId: Option<string>, fen: string, move: Option<ClientMove>)

  datatype EngineEntry = EngineEntry(move: string, score: real)

  /** The engine's parsed JSON; `None` is an absent or `null` field. */
  datatype EngineResult = EngineResult(
    bestMove: Option<string>,
    evaluation: Option<real>,
    depth: Option<int>,
    topMoves: Option<seq<EngineEntry>>)

  /** The engine either answered or the call rejected; a rejection's
      `message` may be missing. */
  datatype EngineOutcome = Analysed(result: EngineResult) | EngineFailed(message: Option<string>)

  /** What the ledger update does when it is attempted. */
  datatype LedgerOutcome = Stored | LedgerFailed(message: Option<string>)

  /** The normalised analysis sent to the client. */
  datatype Analysis = Analysis(bestMove: string, evaluation: real, depth: int, pv: seq<string>)

  datatype Request = Request(fen: string, depth: int)

  datatype Message =
    | AnalysisMessage(fen: string, analysis: Analysis, move: Option<ClientMove>)
    | ErrorMessage(message: string)

  datatype LedgerEntry = LedgerEntry(from: string, to: string, fen: string, evaluation: real)

  datatype Push = Push(gameId: string, entry: LedgerEntry)

  datatype Outputs = Outputs(request: Request, emitted: seq<Message>, pushed: seq<Push>)

  /** JavaScript truthiness of an optional string: present and non-empty. */
  predicate Truthy(s: Option<string>) { s.Some? && s.value != "" }

  /** The entries' moves, in order. */
  function MovesOf(entries: seq<EngineEntry>): (pv: seq<string>)
    ensures |pv| == |entries|
    ensures forall i :: 0 <= i < |entries| ==> pv[i] == entries[i].move
  {
    seq(|entries|, i requires 0 <= i < |entries| => entries[i].move)
  }

  /** The defaults the handler fills in: `bestMove` falls back to "" when
      falsy, `evaluation` to 0 and `depth` to the requested depth only when
      absent (a present 0 is kept), and `pv` lists the top moves' moves. */
  function Normalise(r: EngineResult): (a: Analysis)
    ensures a.bestMove == "" <==> !Truthy(r.bestMove)
    ensures Truthy(r.bestMove) ==> a.bestMove == r.bestMove.value
    ensures r.evaluation.Some? ==> a.evaluation == r.evaluation.value
    ensures r.evaluation.None? ==> a.evaluation == 0.0
    ensures r.depth.Some? ==> a.depth == r.depth.value
    ensures r.depth.None? ==> a.depth == RequestDepth
    ensures r.topMoves.None? ==> a.pv == []
    ensures r.topMoves.Some? ==>
      |a.pv| == |r.topMoves.value| &&
      forall i :: 0 <= i < |a.pv| ==> a.pv[i] == r.topMoves.value[i].move
  {
    Analysis(
      if Truthy(r.bestMove) then r.bestMove.value else "",
      r.evaluation.GetOr(0.0),
      r.depth.GetOr(RequestDepth),
      MovesOf(r.topMoves.GetOr([])))
  }

  /** `err.message || 'Analysis error'`: never empty. */
  function ErrorText(message: Option<string>): (t: string)
    ensures t != ""
    ensures Truthy(message) ==> t == message.value
    ensures !Truthy(message) ==> t == FallbackError
  {
    if Truthy(message) then message.value else FallbackError
  }

  /** What a successful analysis leads to once it has been emitted: the
      ledger push when the event names a game, and an error message when
      that push throws. */
  function Record(e: MoveEvent, a: Analysis, ledger: LedgerOutcome): (o: (seq<Message>, seq<Push>))
    ensures |o.0| <= 1 && |o.1| <= 1
    ensures !Truthy(e.gameId) ==> o == ([], [])
    ensures |o.1| == 1 <==> Truthy(e.gameId) && e.move.Some? && ledger == Stored
    ensures |o.0| == 1 <==> Truthy(e.gameId) && (e.move.None? || ledger.LedgerFailed?)
    ensures |o.0| == 1 ==> o.0[0].ErrorMessage? && o.1 == []
    ensures |o.1| == 1 ==>
      o.1[0] == Push(e.gameId.value, LedgerEntry(e.move.value.from, e.move.value.to, e.fen, a.evaluation))
  {
    if !Truthy(e.gameId) then ([], [])
    else if e.move.None? then ([ErrorMessage(MissingMoveError)], [])
    else match ledger
      case Stored =>
        ([], [Push(e.gameId.value, LedgerEntry(e.move.value.from, e.move.value.to, e.fen, a.evaluation))])
      case LedgerFailed(m) => ([ErrorMessage(ErrorText(m))], [])
  }

  /** The `move` handler. */
  function Handle(e: MoveEvent, engine: EngineOutcome, ledger: LedgerOutcome): (o: Outputs)
    ensures o.request == Request(e.fen, RequestDepth)
    ensures 1 <= |o.emitted| <= 2 && |o.pushed| <= 1
    ensures engine.EngineFailed? ==>
      o.emitted == [ErrorMessage(ErrorText(engine.message))] && o.pushed == []
    ensures engine.Analysed? ==>
      o.emitted[0] == AnalysisMessage(e.fen, Normalise(engine.result), e.move)
    ensures |o.emitted| == 2 ==> engine.Analysed? && o.emitted[1].ErrorMessage?
    // A second message, always an error, appears exactly when the push to
    // a named game throws: the move is missing or the store fails.
    ensures |o.emitted| == 2 <==>
      engine.Analysed? && Truthy(e.gameId) && (e.move.None? || ledger.LedgerFailed?)
    ensures |o.emitted| == 2 ==>
      o.emitted[1] == ErrorMessage(if e.move.None? then MissingMoveError else ErrorText(ledger.message))
    // The ledger entry is the one the analysis leads to.
    ensures engine.Analysed? ==> o.pushed == Record(e, Normalise(engine.result), ledger).1
  {
    var request := Request(e.fen, RequestDepth);
    match engine
    case EngineFailed(m) => Outputs(request, [ErrorMessage(ErrorText(m))], [])
    case Analysed(r) =>
      var a := Normalise(r);
      var (errors, pushes) := Record(e, a, ledger);
      Outputs(request, [AnalysisMessage(e.fen, a, e.move)] + errors, pushes)
  }

  /** The analysis messages among `ms`. */
  function AnalysisCount(ms: seq<Message>): (n: nat)
    ensures n <= |ms|
  {
    if |ms| == 0 then 0
    else (if ms[0].AnalysisMessage? then 1 else 0) + AnalysisCount(ms[1..])
  }

  /** An `analysis` message is emitted exactly when the engine answers, and
      then exactly once, whatever happens to the ledger afterwards. */
  lemma OneAnalysisPerSuccess(e: MoveEvent, engine: EngineOutcome, ledger: LedgerOutcome)
    ensures AnalysisCount(Handle(e, engine, ledger).emitted) == (if engine.Analysed? then 1 else 0)
  {
    var ms := Handle(e, engine, ledger).emitted;
    if |ms| == 2 {
      assert ms[1..][1..] == [];
    }
  }

  /** The ledger's fate does not change what the client is told about the
      analysis, nor what the engine is asked. */
  lemma LedgerDoesNotAlterAnalysis(e: MoveEvent, engine: EngineOutcome, l1: LedgerOutcome, l2: LedgerOutcome)
    ensures Handle(e, engine, l1).request == Handle(e, engine, l2).request
    ensures Handle(e, engine, l1).emitted[0] == Handle(e, engine, l2).emitted[0]
  {
  }

  /** A ledger push happens exactly when the engine answered, the event
      names a game and carries a move, and the store succeeds; the entry
      holds the evaluation the client was sent. */
  lemma PushIffGameNamed(e: MoveEvent, engine: EngineOutcome, ledger: LedgerOutcome)
    ensures |Handle(e, engine, ledger).pushed| == 1 <==>
      engine.Analysed? && Truthy(e.gameId) && e.move.Some? && ledger == Stored
    ensures |Handle(e, engine, ledger).pushed| == 1 ==>
      Handle(e, engine, ledger).pushed[0].entry.evaluation ==
      Handle(e, engine, ledger).emitted[0].analysis.evaluation
  {
  }

  /** A failure after the analysis was emitted is reported as a second
      message: the client sees both. */
  lemma LedgerFailureFollowsAnalysis(e: MoveEvent, r: EngineResult, m: Option<string>)
    requires Truthy(e.gameId) && e.move.Some?
    ensures Handle(e, Analysed(r), LedgerFailed(m)).emitted ==
      [AnalysisMessage(e.fen, Normalise(r), e.move), ErrorMessage(ErrorText(m))]
  {
  }

  /** The engine's result rebuilt from an analysis the handler produced. */
  function AsResult(a: Analysis): (r: EngineResult)
    ensures r.topMoves.Some? && |r.topMoves.value| == |a.pv|
  {
    EngineResult(Some(a.bestMove), Some(a.evaluation), Some(a.depth),
      Some(seq(|a.pv|, i requires 0 <= i < |a.pv| => EngineEntry(a.pv[i], 0.0))))
  }

  /** Normalising is idempotent: an analysis fed back through the handler's
      defaults comes out unchanged. */
  lemma NormaliseIdempotent(a: Analysis)
    ensures Normalise(AsResult(a)) == a
  {
    var b := Normalise(AsResult(a));
    assert b.pv == a.pv;
  }

  /** An engine value of 0 is kept, while a missing or empty best move
      both become "". */
  lemma ZeroEvaluationKept(r: EngineResult)
    requires r.evaluation == Some(0.0) && r.bestMove in {None, Some("")}
    ensures Normalise(r).evaluation == 0.0 && Normalise(r).bestMove == ""
  {
  }
}

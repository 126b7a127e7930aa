/** The engine's command line and the `topMoves` part of its JSON output
    (engine-cpp/src/main.cpp). */
module EngineMain {
  import opened Wrappers
  import opened CText
  import opened ChessTypes

  const DefaultDepth: int := 4

  datatype Config = Config(fen: string, depth: int)

  const Defaults: Config := Config(StartFen, DefaultDepth)

  predicate IsFlag(arg: string) { arg == "--fen" || arg == "--depth" }

  // ---------------------------------------------------------------------
  // Arguments
  // ---------------------------------------------------------------------

  /** The argument loop over what follows the program name: a flag with a
      following argument takes that argument as its value, whatever it
      is; anything else is skipped. `None` stands for the exception
      `std::stoi` throws on a `--depth` value that is not a number. */
  function Scan(args: seq<string>, cfg: Config): Option<Config>
    decreases |args|
  {
    if |args| == 0 then Some(cfg)
    else if args[0] == "--fen" && |args| > 1 then Scan(args[2..], cfg.(fen := args[1]))
    else if args[0] == "--depth" && |args| > 1 then
      match Stoi(args[1])
      case None => None
      case Some(d) => Scan(args[2..], cfg.(depth := d))
    else Scan(args[1..], cfg)
  }

  function ProgramArgs(argv: seq<string>): seq<string> {
    if |argv| == 0 then [] else argv[1..]
  }

  /** The configuration `main` runs with. */
  function ParseArgs(argv: seq<string>): Option<Config> {
    Scan(ProgramArgs(argv), Defaults)
  }

  /** The argument list ends in a flag the loop reaches with nothing after
      it. */
  predicate Dangling(args: seq<string>)
    decreases |args|
  {
    if |args| == 0 then false
    else if IsFlag(args[0]) && |args| > 1 then Dangling(args[2..])
    else if |args| == 1 then IsFlag(args[0])
    else Dangling(args[1..])
  }

  /** The loop as `main` writes it, over indices of `argv`. */
  method ParseArgsLoop(argv: seq<string>) returns (cfg: Option<Config>)
    ensures cfg == ParseArgs(argv)
  {
    if |argv| == 0 {
      return Some(Defaults);
    }
    var fen := StartFen;
    var depth := DefaultDepth;
    var i := 1;
    while i < |argv|
      invariant 1 <= i <= |argv|
      invariant ParseArgs(argv) == Scan(argv[i..], Config(fen, depth))
    {
      var arg := argv[i];
      if arg == "--fen" && i + 1 < |argv| {
        assert argv[i..][2..] == argv[i + 2..];
        i := i + 1;
        fen := argv[i];
      } else if arg == "--depth" && i + 1 < |argv| {
        assert argv[i..][2..] == argv[i + 2..];
        i := i + 1;
        var d := Stoi(argv[i]);
        if d.None? {
          return None;
        }
        depth := d.value;
      } else {
        assert argv[i..][1..] == argv[i + 1..];
      }
      i := i + 1;
    }
    assert argv[i..] == [];
    return Some(Config(fen, depth));
  }

  /** Arguments that are split at a point the loop passes through can be
      scanned one part after the other. */
  lemma {:induction false} ScanAppend(a: seq<string>, b: seq<string>, cfg: Config)
    requires !Dangling(a)
    ensures Scan(a + b, cfg) == match Scan(a, cfg) case None => None case Some(c) => Scan(b, c)
    decreases |a|
  {
    if |a| == 0 {
      assert a + b == b;
    } else if IsFlag(a[0]) && |a| > 1 {
      assert (a + b)[0] == a[0] && (a + b)[1] == a[1];
      assert (a + b)[2..] == a[2..] + b;
      ScanAppend(a[2..], b, cfg.(fen := a[1]));
      if a[0] == "--depth" && Stoi(a[1]).Some? {
        ScanAppend(a[2..], b, cfg.(depth := Stoi(a[1]).value));
      }
    } else {
      assert (a + b)[0] == a[0];
      assert (a + b)[1..] == a[1..] + b;
      ScanAppend(a[1..], b, cfg);
    }
  }

  /** With no arguments, or none the loop recognises, the defaults stand:
      the starting position at depth 4. */
  lemma {:induction false} NoFlagsKeepDefaults(args: seq<string>, cfg: Config)
    requires forall i :: 0 <= i < |args| ==> !IsFlag(args[i])
    ensures Scan(args, cfg) == Some(cfg)
    decreases |args|
  {
    if |args| > 0 {
      NoFlagsKeepDefaults(args[1..], cfg);
    }
  }

  lemma DefaultsWithoutArguments(program: string)
    ensures ParseArgs([program]) == Some(Config(StartFen, 4))
    ensures ParseArgs([]) == Some(Config(StartFen, 4))
  {
  }

  /** `--fen X` sets the position to X and `--depth N` the depth to N; the
      value is consumed whatever it is, so it is never read as a flag. */
  lemma FlagTakesNextArgument(v: string, rest: seq<string>, cfg: Config)
    ensures Scan(["--fen", v] + rest, cfg) == Scan(rest, cfg.(fen := v))
    ensures Scan(["--depth", v] + rest, cfg) ==
      match Stoi(v) case None => None case Some(d) => Scan(rest, cfg.(depth := d))
  {
    assert (["--fen", v] + rest)[2..] == rest;
    assert (["--depth", v] + rest)[2..] == rest;
  }

  /** An argument that is not a flag is skipped. */
  lemma UnknownArgumentSkipped(x: string, rest: seq<string>, cfg: Config)
    requires !IsFlag(x)
    ensures Scan([x] + rest, cfg) == Scan(rest, cfg)
  {
    assert ([x] + rest)[1..] == rest;
  }

  /** A repeated flag: the occurrence the loop reaches last wins. */
  lemma LastOccurrenceWins(a: seq<string>, x: string, cfg: Config)
    requires !Dangling(a) && Scan(a, cfg).Some?
    ensures Scan(a + ["--fen", x], cfg) == Some(Scan(a, cfg).value.(fen := x))
    ensures Stoi(x).Some? ==>
      Scan(a + ["--depth", x], cfg) == Some(Scan(a, cfg).value.(depth := Stoi(x).value))
  {
    ScanAppend(a, ["--fen", x], cfg);
    ScanAppend(a, ["--depth", x], cfg);
    FlagTakesNextArgument(x, [], Scan(a, cfg).value);
    assert ["--fen", x] + [] == ["--fen", x];
    assert ["--depth", x] + [] == ["--depth", x];
  }

  /** A flag in last position, with no value after it, changes nothing. */
  lemma TrailingFlagIgnored(a: seq<string>, flag: string, cfg: Config)
    requires !Dangling(a) && IsFlag(flag)
    ensures Scan(a + [flag], cfg) == Scan(a, cfg)
  {
    ScanAppend(a, [flag], cfg);
  }

  // ---------------------------------------------------------------------
  // The topMoves list
  // ---------------------------------------------------------------------

  /** One entry of `topMoves`: a move and its score as the stream prints
      it. */
  datatype TopMove = TopMove(move: Move, score: string)

  function EntryText(e: TopMove): string {
    "    {\"move\": \"" + MoveToString(e.move) + "\", \"score\": " + e.score + "}"
  }

  /** The entries joined by a comma and a line break. */
  function Joined(es: seq<TopMove>): string
    decreases |es|
  {
    if |es| == 0 then ""
    else if |es| == 1 then EntryText(es[0])
    else EntryText(es[0]) + ",\n" + Joined(es[1..])
  }

  const TopMovesOpen: string := "  \"topMoves\": [\n"

  const TopMovesClose: string := "  ]\n"

  /** The `topMoves` array: each entry on its own line, separated by a
      single comma, no comma after the last one; an empty list is just
      the brackets. */
  function TopMovesText(es: seq<TopMove>): string {
    TopMovesOpen + (if |es| == 0 then "" else Joined(es) + "\n") + TopMovesClose
  }

  lemma {:induction false} JoinedSnoc(es: seq<TopMove>, e: TopMove)
    requires |es| > 0
    ensures Joined(es + [e]) == Joined(es) + ",\n" + EntryText(e)
    decreases |es|
  {
    if |es| > 1 {
      assert (es + [e])[1..] == es[1..] + [e];
      JoinedSnoc(es[1..], e);
    } else {
      assert es + [e] == [es[0], e];
      assert [es[0], e][1..] == [e];
    }
  }

  /** The comma the output loop writes after entry `i`: none after the
      last. */
  function Separator(es: seq<TopMove>, i: nat): string {
    if i < |es| - 1 then "," else ""
  }

  /** What the output loop has written after its first `i` entries. */
  function Written(es: seq<TopMove>, i: nat): string
    requires i <= |es|
  {
    if i == 0 then "" else Joined(es[..i]) + Separator(es, i - 1) + "\n"
  }

  /** Regrouping the text around one more entry. */
  lemma Regroup(j: string, e: string, sep: string)
    ensures (j + "," + "\n") + (e + sep) + "\n" == (j + ",\n" + e) + sep + "\n"
  {
    assert "," + "\n" == ",\n";
  }

  lemma WrittenStep(es: seq<TopMove>, i: nat)
    requires i < |es|
    ensures Written(es, i) + (EntryText(es[i]) + Separator(es, i)) + "\n" == Written(es, i + 1)
  {
    if i > 0 {
      JoinedSnoc(es[..i], es[i]);
      assert es[..i + 1] == es[..i] + [es[i]];
      Regroup(Joined(es[..i]), EntryText(es[i]), Separator(es, i));
    } else {
      assert es[..1] == [es[0]];
    }
  }

  /** After the last entry, the loop has written the joined entries and
      a final line break. */
  lemma WrittenAll(es: seq<TopMove>)
    ensures TopMovesText(es) == TopMovesOpen + Written(es, |es|) + TopMovesClose
  {
    if |es| > 0 {
      assert es[..|es|] == es;
      assert Joined(es) + "" == Joined(es);
    }
  }

  /** The output loop as `main` writes it: the comma goes after entry `i`
      when `i < size - 1`. */
  method WriteTopMoves(es: seq<TopMove>) returns (out: string)
    ensures out == TopMovesText(es)
  {
    var body := "";
    var i := 0;
    while i < |es|
      invariant 0 <= i <= |es|
      invariant body == Written(es, i)
    {
      var comma := if i < |es| - 1 then "," else "";
      WrittenStep(es, i);
      body := body + (EntryText(es[i]) + comma) + "\n";
      i := i + 1;
    }
    WrittenAll(es);
    out := TopMovesOpen + body + TopMovesClose;
  }

  /** An empty list prints as the two bracket lines; a single entry has no
      comma. */
  lemma TopMovesShape(e: TopMove)
    ensures TopMovesText([]) == "  \"topMoves\": [\n  ]\n"
    ensures TopMovesText([e]) == TopMovesOpen + EntryText(e) + "\n" + TopMovesClose
  {
  }
}

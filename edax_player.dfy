/**
 * The client side of the Edax engine: `EdaxPlayer` sends text commands down the
 * engine's pipe and reads its answers from the list of lines a reader thread
 * fills. The process and the thread are outside the model: every command
 * that reaches the pipe is recorded in `sent`, how far a launch gets is a
 * parameter, and the lines the engine produces while `get_move` waits are
 * given as batches, one per one-second retry.
 */
module Edax {
  import opened Results
  import opened Text
  import opened Coords
  import BitboardFen

  /** What `get_move` returns: `-1` for a pass, or the `(x, y)` of the engine's move. */
  datatype Move = Pass | At(square: Coord)

  /** The exceptions the client lets escape. */
  datatype EngineError =
    | NoOutput                     // `Exception('EngineException', 'NoOutput')`
    | Conversion(TokenError)       // `conv_to_coord` / `coord_to_conv` on a bad token or file
    | AssertionFailed              // an `assert` of `action_xy`
    | NotSubscriptable             // `mv[1]` on a pass (-1) or on `None`
    | MissingAttribute             // `self.op` read when `engine_init` never created it

  /**
   * How far `engine_init` gets. The path check, `Popen` and the polls are
   * outside the model; which of their outcomes occurs is a parameter.
   */
  datatype Launch =
    | PathMissing      // the engine path does not exist: returns before `self.p` is set
    | SpawnFailed      // `Popen` raises `OSError`: returns before `self.p` is set
    | ExitedAtOnce     // the process is still gone after 40 polls: `self.p` is set, `self.op` is not
    | NoHandshake      // no `feature` line within 60 polls: `self.op` is set, the engine stays inactive
    | Started          // the handshake succeeded and the start position was sent

  /** `self.p` is assigned: `Popen` returned a process. */
  predicate Spawned(launch: Launch)
  {
    launch != PathMissing && launch != SpawnFailed
  }

  /** `self.op = []` is reached: the process was still running when polled. */
  predicate Listening(launch: Launch)
  {
    launch == NoHandshake || launch == Started
  }

  /** `std_start_fen`, the opening position in the engine's notation. */
  const StartFen := "8/8/8/3pP3/3Pp3/8/8/8 b - - 0 1"

  /** The commands `engine_init` writes, by how far it gets. */
  function HandshakeCommands(launch: Launch, timePerMove: int, searchDepth: int): (cmds: seq<string>)
    ensures |cmds| > 0 <==> Listening(launch)
    ensures Listening(launch) ==> cmds[0] == "protover 2\n"
    ensures launch == Started ==> |cmds| == 5 && cmds[2] == "setboard " + StartFen + "\n"
  {
    match launch
    case NoHandshake => ["protover 2\n"]
    case Started =>
      ["protover 2\n", "variant reversi\n", "setboard " + StartFen + "\n",
       "st " + IntString(timePerMove) + "\n", "sd " + IntString(searchDepth) + "\n"]
    case _ => []
  }

  /** What reaches the engine of the commands written: nothing when there is no `self.p`. */
  function Written(hasPipe: bool, cmds: seq<string>): seq<string>
  {
    if hasPipe then cmds else []
  }

  /** Number of one-second waits `get_move` allows after the first look. */
  const Retries := 30

  /** A reply line announcing a move, once surrounding whitespace is stripped. */
  predicate IsMoveLine(line: string)
  {
    StartsWith(Strip(line), "move")
  }

  /** Where the `for l in self.op` loop stops: the first move line, or the end of the batch. */
  function FirstMoveIndex(lines: seq<string>): (k: nat)
    ensures k <= |lines|
    ensures k < |lines| ==> IsMoveLine(lines[k])
    ensures forall j :: 0 <= j < k ==> !IsMoveLine(lines[j])
  {
    if lines == [] then 0
    else if IsMoveLine(lines[0]) then 0
    else 1 + FirstMoveIndex(lines[1..])
  }

  /** The first move line of a batch, stripped, if there is one. */
  function FirstMoveLine(lines: seq<string>): Option<string>
  {
    var k := FirstMoveIndex(lines);
    if k < |lines| then Some(Strip(lines[k])) else None
  }

  /** `self.mv` after one scan of a batch: `l[7:]` of its first move line, else unchanged. */
  function ScanBatch(mv: string, lines: seq<string>): string
  {
    match FirstMoveLine(lines)
    case Some(line) => Drop(line, 7)
    case None => mv
  }

  /** The lines delivered during retry `i`; the engine may stop early. */
  function Batch(arrivals: seq<seq<string>>, i: nat): seq<string>
  {
    if i < |arrivals| then arrivals[i] else []
  }

  /** The token each retry's batch yields on its own. */
  function RetryTokens(arrivals: seq<seq<string>>): seq<string>
  {
    seq(Retries, i requires 0 <= i < Retries => ScanBatch("", Batch(arrivals, i)))
  }

  /** `self.mv` once the retries from `i` on have run: each takes its token while `mv` is still empty. */
  function AfterRetries(mv: string, tokens: seq<string>, i: nat): string
    requires i <= |tokens|
    decreases |tokens| - i
  {
    if i == |tokens| || mv != "" then mv
    else AfterRetries(tokens[i], tokens, i + 1)
  }

  /** The token `get_move` settles on, from `self.mv`, the pending lines and the retry batches. */
  function FinalToken(mv: string, op: seq<string>, arrivals: seq<seq<string>>): string
  {
    AfterRetries(ScanBatch(mv, op), RetryTokens(arrivals), 0)
  }

  /** What `get_move` makes of its token. */
  function DecodeReply(token: string): (r: Result<Move, EngineError>)
    ensures r == Err(NoOutput) <==> token == ""
    ensures r == Ok(Pass) <==> token == "@@"
    ensures r.Ok? && r.value.At? ==> ConvToCoord(token) == Ok(r.value.square)
    ensures r.Err? && r.error != NoOutput ==> ConvToCoord(token).Err? && r.error == Conversion(ConvToCoord(token).error)
  {
    if token == "" then Err(NoOutput)
    else if token == "@@" then Ok(Pass)
    else
      match ConvToCoord(token)
      case Ok(c) => Ok(At(c))
      case Err(e) => Err(Conversion(e))
  }

  /** The outcome of `get_move`. */
  function MoveFrom(mv: string, op: seq<string>, arrivals: seq<seq<string>>): Result<Move, EngineError>
  {
    DecodeReply(FinalToken(mv, op, arrivals))
  }

  /** `get_move` after `self.mv = ""`: it fails at `for l in self.op` when there is no `self.op`. */
  function Reply(op: Option<seq<string>>, arrivals: seq<seq<string>>): (r: Result<Move, EngineError>)
    ensures op.None? <==> r == Err(MissingAttribute)
  {
    match op
    case None => Err(MissingAttribute)
    case Some(lines) => MoveFrom("", lines, arrivals)
  }

  /** `self.mv` after such a `get_move`. */
  function Token(op: Option<seq<string>>, arrivals: seq<seq<string>>): string
  {
    match op
    case None => ""
    case Some(lines) => FinalToken("", lines, arrivals)
  }

  /** `self.op` after such a `get_move`: emptied, if it exists. */
  function Drained(op: Option<seq<string>>): Option<seq<string>>
  {
    if op.None? then None else Some([])
  }

  /** A `get_move` outcome seen where `action_xy` results are expected. */
  function Lift(r: Result<Move, EngineError>): Result<Option<Move>, EngineError>
  {
    match r
    case Ok(m) => Ok(Some(m))
    case Err(e) => Err(e)
  }

  /** `pos = (7 - mv[1]) * 8 + mv[0]`: only a square has a second component. */
  function BoardIndexOf(r: Result<Option<Move>, EngineError>): (pos: Result<int, EngineError>)
    ensures pos.Ok? <==> r.Ok? && r.value.Some? && r.value.value.At?
    ensures pos.Ok? && 0 <= r.value.value.square.x < 8 ==> EngineCoord(pos.value) == r.value.value.square
    ensures r.Err? ==> pos == Err(r.error)
    ensures r.Ok? && !(r.value.Some? && r.value.value.At?) ==> pos == Err(NotSubscriptable)
  {
    match r
    case Ok(Some(At(c))) => Ok(BoardIndex(c))
    case Ok(_) => Err(NotSubscriptable)
    case Err(e) => Err(e)
  }

  /** How `action_xy` routes its arguments. */
  datatype Route = StartRoute | PassRoute | UserMove(x: int, y: int) | Rejected

  function RouteOf(x: Option<int>, y: Option<int>, start: bool): (route: Route)
    ensures route == StartRoute <==> x.None? && y.None? && start
    ensures route == PassRoute <==> x.None? && y.None? && !start
    ensures route.UserMove? <==> x.Some? && y.Some? && 0 <= x.value < 8 && 0 <= y.value < 8
    ensures route.UserMove? ==> route == UserMove(x.value, y.value)
  {
    if x.None? && y.None? then (if start then StartRoute else PassRoute)
    else if x.None? || y.None? then Rejected
    else if 0 <= x.value < 8 && 0 <= y.value < 8 then UserMove(x.value, y.value)
    else Rejected
  }

  /** The commands `action` sends before asking for a move. */
  function SearchCommands(fen: string, timePerMove: int, searchDepth: int): seq<string>
  {
    ["setboard " + fen + "\n", "st " + IntString(timePerMove) + "\n",
     "sd " + IntString(searchDepth) + "\n", "go\n"]
  }

  class EdaxPlayer {
    /** `settings["time_per_move"]` and `settings["search_depth"]`. */
    const timePerMove: int
    const searchDepth: int
    var engineActive: bool
    /** Whether `self.p` exists: `engine_init` has once got a process from `Popen`. */
    var hasPipe: bool
    /**
     * `self.op`: the lines the reader thread has collected that `get_move` has
     * not looked at yet; `None` until `engine_init` gets as far as creating it.
     */
    var op: Option<seq<string>>
    /** The move token last read from the engine. */
    var mv: string
    /** Every command that reached the engine's pipe, oldest first. */
    var sent: seq<string>

    /** `EdaxPlayer.__init__`: keeps the settings and runs `engine_init`, which gets as far as `launch` says. */
    constructor (timePerMove: int, searchDepth: int, launch: Launch)
      ensures this.timePerMove == timePerMove && this.searchDepth == searchDepth
      ensures engineActive == (launch == Started) && hasPipe == Spawned(launch)
      ensures op == (if Listening(launch) then Some([]) else None)
      ensures sent == HandshakeCommands(launch, timePerMove, searchDepth) && mv == ""
    {
      this.timePerMove := timePerMove;
      this.searchDepth := searchDepth;
      engineActive := false;
      hasPipe := false;
      op := None;
      mv := "";
      sent := [];
      new;
      EngineInit(launch);
    }

    /**
     * `engine_init`: the engine is active only after a full handshake; `self.p`
     * and `self.op` are created on the way and kept from any earlier launch.
     */
    method EngineInit(launch: Launch)
      modifies this`engineActive, this`hasPipe, this`op, this`sent
      ensures engineActive == (launch == Started)
      ensures hasPipe == (old(hasPipe) || Spawned(launch))
      ensures op == (if Listening(launch) then Some([]) else old(op))
      ensures sent == old(sent) + HandshakeCommands(launch, timePerMove, searchDepth)
    {
      engineActive := false;
      if launch == PathMissing || launch == SpawnFailed {
        return;
      }
      hasPipe := true;
      if launch == ExitedAtOnce {
        return;
      }
      op := Some([]);
      Command("protover 2\n");
      // the handshake loop consumes the `feature` lines
      op := Some([]);
      if launch == NoHandshake {
        return;
      }
      Command("variant reversi\n");
      Command("setboard " + StartFen + "\n");
      Command("st " + IntString(timePerMove) + "\n");
      Command("sd " + IntString(searchDepth) + "\n");
      engineActive := true;
    }

    /** `command`: writes one line to the engine; with no `self.p` the AttributeError is swallowed. */
    method Command(cmd: string)
      modifies this`sent
      ensures sent == old(sent) + Written(hasPipe, [cmd])
    {
      if hasPipe {
        sent := sent + [cmd];
      }
    }

    /** One `for l in self.op` scan over `lines`: the first move line sets `mv` to its `l[7:]`. */
    method ScanOp(lines: seq<string>)
      modifies this`mv
      ensures mv == ScanBatch(old(mv), lines)
    {
      var k := 0;
      while k < |lines|
        invariant 0 <= k <= |lines|
        invariant mv == old(mv)
        invariant forall j :: 0 <= j < k ==> !IsMoveLine(lines[j])
      {
        var line := Strip(lines[k]);
        if StartsWith(line, "move") {
          mv := Drop(line, 7);
          break;
        }
        k := k + 1;
      }
    }

    /**
     * `get_move`: looks at the pending lines, then at most `Retries` more times
     * at what arrived during each wait, until a non-empty token turns up.
     */
    method GetMove(arrivals: seq<seq<string>>) returns (r: Result<Move, EngineError>)
      modifies this`mv, this`op
      ensures old(op).None? ==> r == Err(MissingAttribute) && mv == old(mv) && op == None
      ensures old(op).Some? ==>
        && mv == FinalToken(old(mv), old(op).value, arrivals) && op == Some([])
        && r == MoveFrom(old(mv), old(op).value, arrivals)
    {
      if op.None? {
        return Err(MissingAttribute);
      }
      ghost var tokens := RetryTokens(arrivals);
      ScanOp(op.value);
      op := Some([]);
      var i := 0;
      while i < Retries
        invariant 0 <= i <= Retries && op == Some([])
        invariant AfterRetries(mv, tokens, i) == FinalToken(old(mv), old(op).value, arrivals)
      {
        if mv == "" {
          op := Some(Batch(arrivals, i));
          ScanOp(op.value);
          op := Some([]);
        } else {
          break;
        }
        i := i + 1;
      }
      if mv == "" {
        return Err(NoOutput);
      }
      if mv == "@@" {
        return Ok(Pass);
      }
      var c := ConvToCoord(mv);
      if c.Err? {
        return Err(Conversion(c.error));
      }
      r := Ok(At(c.value));
    }

    /** `start`: lets the engine move first. */
    method Start(arrivals: seq<seq<string>>) returns (r: Result<Move, EngineError>)
      modifies this`sent, this`mv, this`op
      ensures sent == old(sent) + Written(hasPipe, ["go\n"])
      ensures mv == Token(old(op), arrivals) && op == Drained(old(op))
      ensures r == Reply(old(op), arrivals)
    {
      Command("go\n");
      mv := "";
      r := GetMove(arrivals);
    }

    /** `oppo_pass_on_move`: tells the engine the opponent passed. */
    method OppoPassOnMove(arrivals: seq<seq<string>>) returns (r: Result<Move, EngineError>)
      modifies this`sent, this`mv, this`op
      ensures sent == old(sent) + Written(hasPipe, ["usermove @@@@\n"])
      ensures mv == Token(old(op), arrivals) && op == Drained(old(op))
      ensures r == Reply(old(op), arrivals)
    {
      Command("usermove @@@@\n");
      mv := "";
      r := GetMove(arrivals);
    }

    /**
     * `oppo_move`: runs `engine_init` again if the engine is down (`relaunch` is
     * how far it gets), then sends the opponent's move and waits for the reply.
     */
    method OppoMove(x: int, y: int, arrivals: seq<seq<string>>, relaunch: Launch)
      returns (r: Result<Option<Move>, EngineError>)
      modifies this`engineActive, this`hasPipe, this`sent, this`mv, this`op
      ensures old(engineActive) ==> engineActive && hasPipe == old(hasPipe)
      ensures !old(engineActive) ==>
        engineActive == (relaunch == Started) && hasPipe == (old(hasPipe) || Spawned(relaunch))
      ensures !old(engineActive) && relaunch != Started ==>
        && r == Ok(None) && mv == old(mv)
        && op == (if Listening(relaunch) then Some([]) else old(op))
        && sent == old(sent) + HandshakeCommands(relaunch, timePerMove, searchDepth)
      ensures old(engineActive) || relaunch == Started ==>
        var before := if old(engineActive) then old(sent) else old(sent) + HandshakeCommands(relaunch, timePerMove, searchDepth);
        var pending := if old(engineActive) then old(op) else Some([]);
        if CoordToConv(x, y).Err? then
          r == Err(Conversion(IndexError)) && sent == before && mv == old(mv) && op == pending
        else
          && sent == before + Written(hasPipe, ["usermove " + CoordToConv(x, y).value + "\n"])
          && mv == Token(pending, arrivals) && op == Drained(pending)
          && r == Lift(Reply(pending, arrivals))
    {
      if !engineActive {
        EngineInit(relaunch);
        if !engineActive {
          return Ok(None);
        }
      }
      var move := CoordToConv(x, y);
      if move.Err? {
        return Err(Conversion(move.error));
      }
      Command("usermove " + move.value + "\n");
      mv := "";
      var m := GetMove(arrivals);
      r := Lift(m);
    }

    /** `action_xy`: no square means the engine opens or the opponent passed; else a checked square. */
    method ActionXy(x: Option<int>, y: Option<int>, start: bool, arrivals: seq<seq<string>>, relaunch: Launch)
      returns (r: Result<Option<Move>, EngineError>)
      modifies this`engineActive, this`hasPipe, this`sent, this`mv, this`op
      ensures RouteOf(x, y, start) == Rejected ==>
        && r == Err(AssertionFailed) && sent == old(sent) && mv == old(mv) && op == old(op)
        && engineActive == old(engineActive) && hasPipe == old(hasPipe)
      ensures RouteOf(x, y, start) == StartRoute || RouteOf(x, y, start) == PassRoute ==>
        var cmd := if start then "go\n" else "usermove @@@@\n";
        && sent == old(sent) + Written(hasPipe, [cmd])
        && mv == Token(old(op), arrivals) && op == Drained(old(op))
        && engineActive == old(engineActive) && hasPipe == old(hasPipe)
        && r == Lift(Reply(old(op), arrivals))
      ensures RouteOf(x, y, start).UserMove? && old(engineActive) ==>
        && sent == old(sent) + Written(hasPipe, ["usermove " + CoordToConv(x.value, y.value).value + "\n"])
        && mv == Token(old(op), arrivals) && op == Drained(old(op))
        && engineActive && hasPipe == old(hasPipe)
        && r == Lift(Reply(old(op), arrivals))
      ensures RouteOf(x, y, start).UserMove? && !old(engineActive) ==>
        && engineActive == (relaunch == Started) && hasPipe == (old(hasPipe) || Spawned(relaunch))
        && if relaunch == Started then
          && sent == old(sent) + HandshakeCommands(relaunch, timePerMove, searchDepth)
                     + ["usermove " + CoordToConv(x.value, y.value).value + "\n"]
          && mv == Token(Some([]), arrivals) && op == Some([])
          && r == Lift(Reply(Some([]), arrivals))
        else
          && r == Ok(None) && mv == old(mv)
          && op == (if Listening(relaunch) then Some([]) else old(op))
          && sent == old(sent) + HandshakeCommands(relaunch, timePerMove, searchDepth)
    {
      if x.None? && y.None? && start {
        var m := Start(arrivals);
        r := Lift(m);
      } else if x.None? && y.None? && !start {
        var m := OppoPassOnMove(arrivals);
        r := Lift(m);
      } else {
        if x.None? || y.None? {
          return Err(AssertionFailed);
        }
        if !(0 <= x.value < 8 && 0 <= y.value < 8) {
          return Err(AssertionFailed);
        }
        r := OppoMove(x.value, y.value, arrivals, relaunch);
      }
    }

    /** `action_pos`: `action_xy` on the flipped square, and the reply flipped back to an index. */
    method ActionPos(pos: Option<int>, start: bool, arrivals: seq<seq<string>>, relaunch: Launch)
      returns (r: Result<int, EngineError>)
      modifies this`engineActive, this`hasPipe, this`sent, this`mv, this`op
      ensures pos.None? ==>
        var cmd := if start then "go\n" else "usermove @@@@\n";
        && sent == old(sent) + Written(hasPipe, [cmd])
        && mv == Token(old(op), arrivals) && op == Drained(old(op))
        && engineActive == old(engineActive) && hasPipe == old(hasPipe)
        && r == BoardIndexOf(Lift(Reply(old(op), arrivals)))
      ensures pos.Some? && !(0 <= pos.value < 64) ==>
        && r == Err(AssertionFailed) && sent == old(sent) && mv == old(mv) && op == old(op)
        && engineActive == old(engineActive) && hasPipe == old(hasPipe)
      ensures pos.Some? && 0 <= pos.value < 64 && old(engineActive) ==>
        var c := EngineCoord(pos.value);
        && sent == old(sent) + Written(hasPipe, ["usermove " + CoordToConv(c.x, c.y).value + "\n"])
        && mv == Token(old(op), arrivals) && op == Drained(old(op))
        && engineActive && hasPipe == old(hasPipe)
        && r == BoardIndexOf(Lift(Reply(old(op), arrivals)))
      ensures pos.Some? && 0 <= pos.value < 64 && !old(engineActive) ==>
        var c := EngineCoord(pos.value);
        && engineActive == (relaunch == Started) && hasPipe == (old(hasPipe) || Spawned(relaunch))
        && if relaunch == Started then
          && sent == old(sent) + HandshakeCommands(relaunch, timePerMove, searchDepth)
                     + ["usermove " + CoordToConv(c.x, c.y).value + "\n"]
          && mv == Token(Some([]), arrivals) && op == Some([])
          && r == BoardIndexOf(Lift(Reply(Some([]), arrivals)))
        else
          && r == Err(NotSubscriptable) && mv == old(mv)
          && op == (if Listening(relaunch) then Some([]) else old(op))
          && sent == old(sent) + HandshakeCommands(relaunch, timePerMove, searchDepth)
    {
      var x, y;
      if pos.Some? {
        var c := EngineCoord(pos.value);
        y, x := Some(c.y), Some(c.x);
        assert 0 <= pos.value < 64 <==> 0 <= c.x < 8 && 0 <= c.y < 8;
      } else {
        x, y := None, None;
      }
      var m := ActionXy(x, y, start, arrivals, relaunch);
      r := BoardIndexOf(m);
    }

    /**
     * `action`: sets up the given position (`black` is the side Edax plays, as
     * the notation's fixed side-to-move says), asks for a move and returns its
     * board index.
     */
    method Action(black: nat, white: nat, arrivals: seq<seq<string>>) returns (r: Result<int, EngineError>)
      modifies this`sent, this`mv, this`op
      ensures sent == old(sent) + Written(hasPipe, SearchCommands(BitboardFen.Fen(black, white), timePerMove, searchDepth))
      ensures mv == Token(old(op), arrivals) && op == Drained(old(op))
      ensures r == BoardIndexOf(Lift(Reply(old(op), arrivals)))
    {
      var fen := BitboardFen.BitboardToFen(black, white);
      ghost var before := sent;
      Command("setboard " + fen + "\n");
      Command("st " + IntString(timePerMove) + "\n");
      Command("sd " + IntString(searchDepth) + "\n");
      Command("go\n");
      assert sent == before + Written(hasPipe, SearchCommands(fen, timePerMove, searchDepth));
      mv := "";
      var m := GetMove(arrivals);
      r := BoardIndexOf(Lift(m));
    }
  }

  // ---------------------------------------------------------------------------
  // What the retry loop guarantees

  /** From retry `i` on, an empty token survives exactly when no later token is non-empty. */
  lemma {:induction false} AfterRetriesEmpty(tokens: seq<string>, i: nat)
    requires i <= |tokens|
    decreases |tokens| - i
    ensures AfterRetries("", tokens, i) == "" <==> forall j :: i <= j < |tokens| ==> tokens[j] == ""
  {
    if i < |tokens| {
      AfterRetriesEmpty(tokens, i + 1);
      if tokens[i] != "" {
        assert AfterRetries(tokens[i], tokens, i + 1) == tokens[i];
      }
    }
  }

  /**
   * `get_move` raises `NoOutput` exactly when neither the pending lines nor any of
   * the `Retries` batches has a first move line with something after column 7.
   */
  lemma NoOutputExactly(op: seq<string>, arrivals: seq<seq<string>>)
    ensures MoveFrom("", op, arrivals) == Err(NoOutput) <==>
      ScanBatch("", op) == "" && forall j :: 0 <= j < Retries ==> ScanBatch("", Batch(arrivals, j)) == ""
  {
    var t := ScanBatch("", op);
    var tokens := RetryTokens(arrivals);
    assert forall j :: 0 <= j < Retries ==> tokens[j] == ScanBatch("", Batch(arrivals, j));
    if t == "" {
      AfterRetriesEmpty(tokens, 0);
    } else {
      assert FinalToken("", op, arrivals) == t;
    }
  }

  /** From retry `i` on, the first non-empty token decides the result. */
  lemma {:induction false} FirstCarrierFrom(tokens: seq<string>, i: nat, k: nat)
    requires i <= k < |tokens|
    requires forall j :: i <= j < k ==> tokens[j] == ""
    requires tokens[k] != ""
    ensures AfterRetries("", tokens, i) == tokens[k]
    decreases k - i
  {
    if i < k {
      FirstCarrierFrom(tokens, i + 1, k);
    } else {
      assert AfterRetries(tokens[k], tokens, k + 1) == tokens[k];
    }
  }

  /** A token in the pending lines ends the search: no retry batch is looked at. */
  lemma PendingLinesWin(op: seq<string>, arrivals: seq<seq<string>>)
    requires ScanBatch("", op) != ""
    ensures FinalToken("", op, arrivals) == ScanBatch("", op)
  {
  }

  /** When the pending lines carry no token, the first retry batch that does decides. */
  lemma FirstCarrierWins(op: seq<string>, arrivals: seq<seq<string>>, k: nat)
    requires k < Retries
    requires ScanBatch("", op) == ""
    requires forall j :: 0 <= j < k ==> ScanBatch("", Batch(arrivals, j)) == ""
    requires ScanBatch("", Batch(arrivals, k)) != ""
    ensures FinalToken("", op, arrivals) == ScanBatch("", Batch(arrivals, k))
  {
    FirstCarrierFrom(RetryTokens(arrivals), 0, k);
  }

  /** Lines the engine sends after the last retry change nothing. */
  lemma LateBatchesIgnored(mv: string, op: seq<string>, a: seq<seq<string>>, b: seq<seq<string>>)
    requires forall j :: 0 <= j < Retries ==> Batch(a, j) == Batch(b, j)
    ensures FinalToken(mv, op, a) == FinalToken(mv, op, b)
  {
    assert RetryTokens(a) == RetryTokens(b);
  }

  /** Only the first move line of a batch is looked at, even when it yields nothing. */
  lemma FirstMoveLineOnly()
    ensures ScanBatch("", ["move d3", "move = d4"]) == ""
  {
    assert IsMoveLine("move d3");
  }

  /**
   * The token is taken from column 7: a reply written "move d3" leaves an empty
   * token and, if nothing else arrives, ends in `NoOutput`.
   */
  lemma ShortMoveLineIsNoOutput()
    ensures MoveFrom("", ["move d3"], []) == Err(NoOutput)
  {
    assert IsMoveLine("move d3");
    assert ScanBatch("", ["move d3"]) == "";
    NoOutputExactly(["move d3"], []);
  }

  /**
   * A reply needs three characters between `move` and the square to be read:
   * "move   d3" gives d3, that is (3, 2), which `action` reports as board index 43.
   */
  lemma PaddedMoveLine()
    ensures MoveFrom("", ["move   d3"], []) == Ok(At(Coord(3, 2)))
    ensures BoardIndexOf(Lift(MoveFrom("", ["move   d3"], []))) == Ok(43)
  {
    var line := "move   d3";
    assert TrimStart(line) == line;
    assert TrimEnd(line) == line;
    assert IsMoveLine(line);
    assert ScanBatch("", [line]) == "d3";
    assert ConvToCoord("d3") == Ok(Coord(3, 2));
  }

  /** The square sent for board index `pos` comes back, when echoed as the reply, as `pos`. */
  lemma ReplyRoundTrip(pos: int)
    requires 0 <= pos < 64
    ensures var c := EngineCoord(pos);
      CoordToConv(c.x, c.y).Ok?
      && BoardIndexOf(Lift(DecodeReply(CoordToConv(c.x, c.y).value))) == Ok(pos)
  {
    var c := EngineCoord(pos);
    CoordTokenRoundTrip(c.x, c.y);
    BoardIndexOfEngineCoord(pos);
  }
}

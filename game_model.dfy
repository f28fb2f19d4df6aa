/**
 * `PlayWithHuman`: the turn logic between a human player, the AI and, on
 * request, the Edax engine. The game environment, the legal-move generator and
 * the AI player are outside this model and appear as the functions of an
 * `Externals` value; observers are identified by number, and every callback
 * made is recorded in `notified`.
 */
module GameModel {
  import opened Results
  import BitboardFen
  import Edax

  datatype Player = Black | White

  /** `GameEvent`: `update`, `ai_move`, `over` and `pass`. */
  datatype GameEvent = Update | AiMove | Over | PassEvent

  /** The occupancy masks of `env.board`. */
  datatype Board = Board(black: nat, white: nat)

  /** What `PlayWithHuman` reads of a `ReversiEnv`: its board, whose turn it is, and `done`. */
  datatype Env = Env(board: Board, nextPlayer: Player, done: bool)

  /** `HistoryItem` as `ask_thought_about` returns it. */
  datatype HistoryItem = HistoryItem(action: int, policy: seq<real>, values: seq<real>)

  /** `self.act`: not assigned yet, `None`, the string `'pass'`, or the AI's action. */
  datatype LastAct = Unassigned | NoAct | PassAct | Played(action: int)

  /**
   * The code this model does not contain: `ReversiEnv().reset()`, `env.step`,
   * `find_correct_moves`, and the AI's `action` and `ask_thought_about`.
   */
  datatype Externals = Externals(
    reset: Env,
    step: (Env, int) -> Env,
    legalMoves: (nat, nat) -> nat,
    aiAction: (nat, nat) -> int,
    thought: (nat, nat) -> HistoryItem)

  type ObserverId = nat

  /** One observer callback `ob_func(event)`. */
  datatype Notification = Notification(observer: ObserverId, event: GameEvent)

  /** The exceptions that escape `PlayWithHuman`'s methods. */
  datatype Failure =
    | AssertionFailed            // an `assert 0 <= pos < 64`
    | NoAttribute                // `self.ai` or `self.edax_player` used before `start_game`
    | IndexError                 // `values[action]` out of range
    | Engine(Edax.EngineError)   // raised inside `EdaxPlayer.action`

  /** How a turn method ends: returned `False`, returned normally, or raised. */
  datatype Outcome = Refused | Done | Raised(Failure)

  /** Python's `s[i]`, where a negative index counts from the end. */
  function PyIndex<T>(s: seq<T>, i: int): (r: Option<T>)
    ensures r.Some? <==> -|s| <= i < |s|
  {
    if 0 <= i < |s| then Some(s[i]) else if -|s| <= i < 0 then Some(s[|s| + i]) else None
  }

  /** The callbacks `notify_all(event)` makes: each observer once, in list order. */
  function Broadcast(observers: seq<ObserverId>, event: GameEvent): seq<Notification>
  {
    if observers == [] then []
    else Broadcast(observers[..|observers| - 1], event) + [Notification(observers[|observers| - 1], event)]
  }

  /** The callbacks of several `notify_all` calls in a row. */
  function Deliver(observers: seq<ObserverId>, events: seq<GameEvent>): seq<Notification>
  {
    if events == [] then []
    else Deliver(observers, events[..|events| - 1]) + Broadcast(observers, events[|events| - 1])
  }

  /** The events `play_next_turn` announces, in order. */
  function TurnEvents(done: bool, next: Player, human: Option<Player>): seq<GameEvent>
  {
    [Update] + (if done then [Over] else if Some(next) != human then [AiMove] else [])
  }

  /** `get_state_of_next_player`: the masks as (side to move, opponent). */
  function Oriented(env: Env): (nat, nat)
  {
    if env.nextPlayer == Black then (env.board.black, env.board.white)
    else (env.board.white, env.board.black)
  }

  /** The colour of the stone the scan finds on a square, black first. */
  function Owner(cell: BitboardFen.Cell): Option<Player>
  {
    match cell
    case BlackStone => Some(Black)
    case WhiteStone => Some(White)
    case Empty => None
  }

  /** `stone(px, py)` on a given board. */
  function StoneOn(board: Board, px: int, py: int): (r: Result<Option<Player>, Failure>)
    ensures r.Err? <==> !(0 <= py * 8 + px < 64)
    ensures r.Err? ==> r.error == AssertionFailed
    ensures r.Ok? ==> (r.value == Some(Black) <==> BitboardFen.Bit(board.black, py * 8 + px))
    ensures r.Ok? ==> (r.value == Some(White) <==>
      !BitboardFen.Bit(board.black, py * 8 + px) && BitboardFen.Bit(board.white, py * 8 + px))
  {
    var pos := py * 8 + px;
    if !(0 <= pos < 64) then Err(AssertionFailed)
    else if BitboardFen.Bit(board.black, pos) then Ok(Some(Black))
    else if BitboardFen.Bit(board.white, pos) then Ok(Some(White))
    else Ok(None)
  }

  /** `available(px, py)` in a given environment, for a given human colour and legal-move generator. */
  function AvailableIn(legalMoves: (nat, nat) -> nat, env: Env, human: Option<Player>, px: int, py: int): (r: bool)
    ensures !(0 <= py * 8 + px < 64) ==> !r
  {
    var pos := py * 8 + px;
    if pos < 0 || 64 <= pos then false
    else
      var (own, enemy) :=
        if human == Some(White) then (env.board.white, env.board.black) else (env.board.black, env.board.white);
      BitboardFen.Bit(legalMoves(own, enemy), pos)
  }

  class PlayWithHuman {
    const ext: Externals
    var humanColor: Option<Player>
    var observers: seq<ObserverId>
    var env: Env
    /** Whether `self.ai` holds a player (it is `None` until `start_game`). */
    var aiReady: bool
    /** `self.edax_player`, missing until `start_game`. */
    var edax: Edax.EdaxPlayer?
    var act: LastAct
    var lastEvaluation: Option<real>
    var lastHistory: Option<HistoryItem>
    /** Every observer callback made so far, oldest first. */
    var notified: seq<Notification>

    /** `PlayWithHuman.__init__`, without loading the model. */
    constructor (ext: Externals)
      ensures this.ext == ext
      ensures humanColor == None && observers == [] && env == ext.reset && !aiReady && edax == null
      ensures act == Unassigned && lastEvaluation == None && lastHistory == None && notified == []
    {
      this.ext := ext;
      humanColor := None;
      observers := [];
      env := ext.reset;
      aiReady := false;
      edax := null;
      act := Unassigned;
      lastEvaluation := None;
      lastHistory := None;
      notified := [];
    }

    /** `over`: the environment's `done`. */
    function GameOver(): (r: bool)
      reads this
      ensures r <==> env.done
    {
      env.done
    }

    /** `next_player`: the environment's side to move. */
    function NextPlayer(): (p: Player)
      reads this
      ensures p == env.nextPlayer
    {
      env.nextPlayer
    }

    /** `add_observer` */
    method AddObserver(observer: ObserverId)
      modifies this`observers
      ensures observers == old(observers) + [observer]
    {
      observers := observers + [observer];
    }

    /** `notify_all`: calls back every observer with the event, in the order they were added. */
    method NotifyAll(event: GameEvent)
      modifies this`notified
      ensures notified == old(notified) + Broadcast(observers, event)
    {
      var i := 0;
      while i < |observers|
        invariant 0 <= i <= |observers|
        invariant notified == old(notified) + Broadcast(observers[..i], event)
      {
        assert observers[..i + 1][..i] == observers[..i];
        notified := notified + [Notification(observers[i], event)];
        i := i + 1;
      }
      assert observers[..|observers|] == observers;
    }

    /**
     * `start_game`: the human takes black exactly when `humanIsBlack`; a fresh
     * environment, AI and Edax client (with its default settings; `launch` is
     * how far the client's `engine_init` gets) replace the old ones.
     */
    method StartGame(humanIsBlack: bool, launch: Edax.Launch)
      modifies this`humanColor, this`env, this`aiReady, this`edax, this`act
      ensures humanColor == Some(if humanIsBlack then Black else White)
      ensures env == ext.reset && aiReady && act == NoAct
      ensures edax != null && fresh(edax)
      ensures edax.timePerMove == 1 && edax.searchDepth == 5
      ensures edax.engineActive == (launch == Edax.Started) && edax.hasPipe == Edax.Spawned(launch)
      ensures edax.op == (if Edax.Listening(launch) then Some([]) else None)
      ensures edax.sent == Edax.HandshakeCommands(launch, 1, 5) && edax.mv == ""
    {
      humanColor := Some(if humanIsBlack then Black else White);
      env := ext.reset;
      aiReady := true;
      edax := new Edax.EdaxPlayer(1, 5, launch);
      act := NoAct;
    }

    /** `play_next_turn`: announces the board, then the end of the game or the AI's turn. */
    method PlayNextTurn()
      modifies this`notified
      ensures notified == old(notified) + Deliver(observers, TurnEvents(GameOver(), NextPlayer(), humanColor))
    {
      ghost var before := notified;
      NotifyAll(Update);
      assert Deliver(observers, [Update]) == Broadcast(observers, Update);
      if GameOver() {
        NotifyAll(Over);
        assert [Update, Over][..1] == [Update];
        return;
      }
      if Some(NextPlayer()) != humanColor {
        NotifyAll(AiMove);
        assert [Update, AiMove][..1] == [Update];
      }
    }

    /** `stone(px, py)`: the colour on the square at column `px`, row `py`. */
    function Stone(px: int, py: int): (r: Result<Option<Player>, Failure>)
      reads this
      ensures r.Err? <==> !(0 <= py * 8 + px < 64)
      ensures r.Err? ==> r.error == AssertionFailed
      ensures r.Ok? ==> r.value == Owner(BitboardFen.CellAt(env.board.black, env.board.white, py * 8 + px))
    {
      StoneOn(env.board, px, py)
    }

    /**
     * `available(px, py)`: a legal move for the human's colour, whoever is to
     * move; on the human's own turn, a legal move for the side to move.
     */
    function Available(px: int, py: int): (r: bool)
      reads this
      ensures r ==> 0 <= py * 8 + px < 64
      ensures 0 <= py * 8 + px < 64 && humanColor == Some(NextPlayer()) ==>
        var (own, enemy) := GetStateOfNextPlayer();
        r == BitboardFen.Bit(ext.legalMoves(own, enemy), py * 8 + px)
    {
      AvailableIn(ext.legalMoves, env, humanColor, px, py)
    }

    /** `get_state_of_next_player`: the side to move's mask first. */
    function GetStateOfNextPlayer(): (r: (nat, nat))
      reads this
      ensures env.nextPlayer == Black ==> r == (env.board.black, env.board.white)
      ensures env.nextPlayer == White ==> r == (env.board.white, env.board.black)
    {
      Oriented(env)
    }

    /**
     * `move(px, py, use_edax)`: only on the human's turn. With `use_edax` the
     * engine picks the move for the side to move (the clicked square is not
     * used) and the environment steps; without it nothing happens, because the
     * step sits inside the `if use_edax:` block.
     */
    method Move(px: int, py: int, useEdax: bool, arrivals: seq<seq<string>>) returns (r: Outcome)
      modifies this`env, this`act, edax
      ensures !(0 <= py * 8 + px < 64) ==>
        r == Raised(AssertionFailed) && env == old(env) && act == old(act) && (edax != null ==> unchanged(edax))
      ensures 0 <= py * 8 + px < 64 && Some(old(env).nextPlayer) != humanColor ==>
        r == Refused && env == old(env) && act == old(act) && (edax != null ==> unchanged(edax))
      ensures 0 <= py * 8 + px < 64 && Some(old(env).nextPlayer) == humanColor && !useEdax ==>
        r == Done && env == old(env) && act == old(act) && (edax != null ==> unchanged(edax))
      ensures 0 <= py * 8 + px < 64 && Some(old(env).nextPlayer) == humanColor && useEdax && edax == null ==>
        r == Raised(NoAttribute) && env == old(env) && act == old(act)
      ensures 0 <= py * 8 + px < 64 && Some(old(env).nextPlayer) == humanColor && useEdax && edax != null ==>
        var (own, enemy) := Oriented(old(env));
        var pos := Edax.BoardIndexOf(Edax.Lift(Edax.Reply(old(edax.op), arrivals)));
        && edax.sent == old(edax.sent)
             + Edax.Written(edax.hasPipe, Edax.SearchCommands(BitboardFen.Fen(own, enemy), edax.timePerMove, edax.searchDepth))
        && edax.mv == Edax.Token(old(edax.op), arrivals) && edax.op == Edax.Drained(old(edax.op))
        && edax.engineActive == old(edax.engineActive) && edax.hasPipe == old(edax.hasPipe)
        && (pos.Ok? ==> r == Done && env == ext.step(old(env), pos.value) && act == PassAct)
        && (pos.Err? ==> r == Raised(Engine(pos.error)) && env == old(env) && act == old(act))
    {
      var pos := py * 8 + px;
      if !(0 <= pos < 64) {
        return Raised(AssertionFailed);
      }
      if Some(env.nextPlayer) != humanColor {
        return Refused;
      }
      if useEdax {
        if edax == null {
          return Raised(NoAttribute);
        }
        var (own, enemy) := GetStateOfNextPlayer();
        var action := edax.Action(own, enemy, arrivals);
        if action.Err? {
          return Raised(Engine(action.error));
        }
        act := PassAct;
        env := ext.step(env, action.value);
      }
      return Done;
    }

    /**
     * `move_by_ai`: only when it is not the human's turn. The AI's action for the
     * side to move is played and recorded, and its evaluation is that action's
     * entry of the thought's values.
     */
    method MoveByAi() returns (r: Outcome)
      modifies this`env, this`act, this`lastHistory, this`lastEvaluation
      ensures Some(old(env).nextPlayer) == humanColor ==>
        r == Refused && env == old(env) && act == old(act)
        && lastHistory == old(lastHistory) && lastEvaluation == old(lastEvaluation)
      ensures Some(old(env).nextPlayer) != humanColor && !aiReady ==>
        r == Raised(NoAttribute) && env == old(env)
        && act == old(act) && lastHistory == old(lastHistory) && lastEvaluation == old(lastEvaluation)
      ensures Some(old(env).nextPlayer) != humanColor && aiReady ==>
        var (own, enemy) := Oriented(old(env));
        var action := ext.aiAction(own, enemy);
        var history := ext.thought(own, enemy);
        var evaluation := PyIndex(history.values, history.action);
        && env == ext.step(old(env), action) && act == Played(action) && lastHistory == Some(history)
        && (evaluation.Some? ==> r == Done && lastEvaluation == evaluation)
        && (evaluation.None? ==> r == Raised(IndexError) && lastEvaluation == old(lastEvaluation))
    {
      if Some(env.nextPlayer) == humanColor {
        return Refused;
      }
      var (own, enemy) := GetStateOfNextPlayer();
      if !aiReady {
        return Raised(NoAttribute);
      }
      var action := ext.aiAction(own, enemy);
      env := ext.step(env, action);
      act := Played(action);
      var history := ext.thought(own, enemy);
      lastHistory := Some(history);
      var evaluation := PyIndex(history.values, history.action);
      if evaluation.None? {
        return Raised(IndexError);
      }
      lastEvaluation := evaluation;
      return Done;
    }
  }

  // ---------------------------------------------------------------------------
  // Properties of the turn logic

  /** `notify_all` reaches every observer exactly once, in the order they were added. */
  lemma {:induction false} BroadcastInOrder(observers: seq<ObserverId>, event: GameEvent)
    ensures |Broadcast(observers, event)| == |observers|
    ensures forall k :: 0 <= k < |observers| ==> Broadcast(observers, event)[k] == Notification(observers[k], event)
  {
    if observers != [] {
      var init := observers[..|observers| - 1];
      BroadcastInOrder(init, event);
      assert forall k :: 0 <= k < |init| ==> init[k] == observers[k];
    }
  }

  /**
   * Every turn announces `update` first; `over` exactly when the game is done,
   * and then nothing else; `ai_move` exactly when the game goes on and the side
   * to move is not the human's.
   */
  lemma TurnEventsOrder(done: bool, next: Player, human: Option<Player>)
    ensures var events := TurnEvents(done, next, human);
      && 1 <= |events| <= 2 && events[0] == Update
      && (Over in events <==> done)
      && (done ==> events == [Update, Over])
      && (AiMove in events <==> !done && Some(next) != human)
      && (Update !in events[1..])
  {
  }

  /** A turn's callbacks are each event to every observer, event by event. */
  lemma TurnCallbacks(observers: seq<ObserverId>, done: bool, next: Player, human: Option<Player>)
    ensures var calls := Deliver(observers, TurnEvents(done, next, human));
      && Broadcast(observers, Update) <= calls
      && (done ==> calls == Broadcast(observers, Update) + Broadcast(observers, Over))
      && (!done && Some(next) != human ==> calls == Broadcast(observers, Update) + Broadcast(observers, AiMove))
      && (!done && Some(next) == human ==> calls == Broadcast(observers, Update))
  {
    BroadcastInOrder(observers, Update);
    var events := TurnEvents(done, next, human);
    assert Deliver(observers, [Update]) == Broadcast(observers, Update);
    if |events| == 2 {
      assert events[..1] == [Update];
    }
  }

  /** The side to move's stones come first, whichever colour it is. */
  lemma OrientedSwaps(board: Board, done: bool)
    ensures Oriented(Env(board, Black, done)) == (board.black, board.white)
    ensures var (own, enemy) := Oriented(Env(board, White, done));
      (enemy, own) == Oriented(Env(board, Black, done))
  {
  }

  /**
   * On a board where no square is claimed by both masks, a square is in the
   * mover's mask exactly when `stone` reports the mover's colour there.
   */
  lemma OwnMaskIsMoversStones(env: Env, px: int, py: int)
    requires 0 <= py * 8 + px < 64
    requires !(BitboardFen.Bit(env.board.black, py * 8 + px) && BitboardFen.Bit(env.board.white, py * 8 + px))
    ensures var (own, enemy) := Oriented(env);
      && (BitboardFen.Bit(own, py * 8 + px) <==> StoneOn(env.board, px, py) == Ok(Some(env.nextPlayer)))
      && (BitboardFen.Bit(enemy, py * 8 + px) <==>
            StoneOn(env.board, px, py).Ok? && StoneOn(env.board, px, py).value.Some?
            && StoneOn(env.board, px, py).value != Some(env.nextPlayer))
  {
  }

  /**
   * `available` orients the board by the human's colour (black unless the human
   * is white), not by the side to move: it is the mover's view only on the
   * human's own turn.
   */
  lemma AvailableUsesHumanColour(legalMoves: (nat, nat) -> nat, env: Env, human: Option<Player>, px: int, py: int)
    requires 0 <= py * 8 + px < 64
    ensures var side := if human == Some(White) then White else Black;
      var (own, enemy) := Oriented(env.(nextPlayer := side));
      AvailableIn(legalMoves, env, human, px, py) == BitboardFen.Bit(legalMoves(own, enemy), py * 8 + px)
    ensures forall p: Player :: AvailableIn(legalMoves, env.(nextPlayer := p), human, px, py)
                             == AvailableIn(legalMoves, env, human, px, py)
    ensures human == Some(env.nextPlayer) ==>
      var (own, enemy) := Oriented(env);
      AvailableIn(legalMoves, env, human, px, py) == BitboardFen.Bit(legalMoves(own, enemy), py * 8 + px)
  {
  }

  /**
   * `stone(px, py)` and the Edax board notation agree: the square at column `px`,
   * row `py` is what row `py`, column `px` of the notation decodes to.
   */
  lemma StoneMatchesFen(board: Board, px: int, py: int)
    requires 0 <= px < 8 && 0 <= py < 8
    ensures var f := BitboardFen.Fen(board.black, board.white);
      var rows := BitboardFen.Split(f[..|f| - |BitboardFen.Suffix|], '/');
      |rows| == 8 && |BitboardFen.DecodeRow(rows[py])| == 8
      && StoneOn(board, px, py) == Ok(Owner(BitboardFen.DecodeRow(rows[py])[px]))
  {
    var s := py * 8 + px;
    BitboardFen.FenSquare(board.black, board.white, s);
    assert s / 8 == py && s % 8 == px;
  }
}

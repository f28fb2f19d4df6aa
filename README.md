# Reversi AlphaZero: Edax client and human-play turn logic

This project is a Dafny model of two parts of `reversi-alpha-zero`. Both sit
between the trained AI, the Edax Othello engine and a human player.

- `EdaxPlayer` (`src/reversi_zero/play_game/EdaxPlayer.py`) is the text client of the Edax engine:
  - `bitboard_to_fen` writes a pair of 64-bit occupancy masks in the engine's board notation;
  - `conv_to_coord`, `coord_to_conv`, `conv_to_pos` and `pos_to_conv` convert between squares and tokens such as `d6`;
  - `action`, `action_pos` and `action_xy` flip between board indices and engine coordinates and send the engine its commands;
  - `get_move` scans the engine's output lines for a move, retrying up to 30 times before it gives up with `NoOutput`.
- `PlayWithHuman` (`src/reversi_zero/play_game/game_model.py`) is the game loop behind the GUI:
  - it keeps the human's colour, the environment, the observers, the last action and the AI's last evaluation;
  - it decides whose turn it is, orients the masks as (side to move, opponent), and notifies observers in a fixed order.

The files:

- `results.dfy` holds `Option` and `Result`. They stand in for `None` and for the exceptions the code raises.
- `text.dfy` holds the Python string operations the client uses:
  - `strip`, `startswith`, slicing and `str`.
- `bitboard_fen.dfy` holds the board notation:
  - `Fen`, the notation as a function of the masks;
  - `BitboardToFen`, the nested scanning loop, proved to compute `Fen`;
  - a decoder for the notation, used to prove what the notation says about every square.
- `coords.dfy` holds the token and index conversions and the vertical flips.
- `edax_player.dfy` holds the class `EdaxPlayer`:
  - commands that reach the engine's pipe are recorded in `sent`, and how far `engine_init` gets is a parameter;
  - the reply lines that arrive during each one-second wait of `get_move` are a parameter: one batch per retry;
  - `GetMove` is proved equal to the pure function `MoveFrom` over the pending lines and those batches.
- `game_model.dfy` holds the class `PlayWithHuman`. The environment step, the legal-move generator and the AI are the functions of an `Externals` value.

Five behaviours of the code are easy to misread; the model follows the code:

- `move(px, py, use_edax)` steps the environment only inside its `if use_edax:` block. After its two guards (an off-board square fails `assert 0 <= pos < 64`, and a call on the other side's turn returns `False`), without `use_edax` it does nothing and returns `None`. The clicked square is only bounds-checked, never played.
- `get_move` takes the token from character 7 of the move line (`l[7:]`). A reply `move d3` therefore yields an empty token and, if nothing else arrives, `NoOutput` (`Edax.ShortMoveLineIsNoOutput`). A reply with three characters after `move`, such as `move   d3`, yields d3 = (3, 2).
- `action` flips the row with `(7 - y) * 8 + x`, so it reports d3 as board index 43 (`Edax.PaddedMoveLine`); `conv_to_pos`, which does not flip, would give 19 for the same token.
- `engine_init` returns before it creates `self.op` when the engine path is missing, when `Popen` fails, or when the process exits at once. Every later `action`, `start` or pass then raises AttributeError at `for l in self.op`, until an `oppo_move` relaunch reaches `self.op = []`; the commands before it are dropped when there is no `self.p`.
- `pos_to_conv` splits an index as `x = pos // 8`, `y = pos % 8`. As a result, `conv_to_pos(pos_to_conv(p))` is the transpose of `p`, not `p`.

## Model

| member | source | states |
|---|---|---|
| `Text.TrimStartRemovesLeadingSpace` | src/reversi_zero/play_game/EdaxPlayer.py:132 | stripping the left side removes exactly a run of leading whitespace and stops at the first other character |
| `Text.TrimEndRemovesTrailingSpace` | src/reversi_zero/play_game/EdaxPlayer.py:132 | stripping the right side removes exactly a run of trailing whitespace and stops at the last other character |
| `Text.StartsWith` | src/reversi_zero/play_game/EdaxPlayer.py:133 | `l.startswith('move')` holds exactly when the line is at least as long as the prefix and agrees with it character by character |
| `Text.Drop` | src/reversi_zero/play_game/EdaxPlayer.py:134 | `l[7:]` holds the characters from position 7 on, and is empty when the line is shorter |
| `Text.IntString` | src/reversi_zero/play_game/EdaxPlayer.py:182 | `str(n)` starts with a minus sign exactly for negative numbers, and is the single digit for 0..9 |
| `BitboardFen.BitboardToFen` | src/reversi_zero/play_game/EdaxPlayer.py:40-64 | the nested loop returns exactly the notation `Fen(black, white)`: eight row encodings joined by '/' plus the suffix |
| `BitboardFen.ScanRow` | src/reversi_zero/play_game/EdaxPlayer.py:43-60 | the inner loop writes the run-length encoding of the low eight squares and leaves both masks shifted right by eight |
| `BitboardFen.ScanAt` | src/reversi_zero/play_game/EdaxPlayer.py:45-58 | the k-th square the scan meets is bit k: black if the black bit is set, else white if the white bit is set, else empty |
| `BitboardFen.RowCellsAt` | src/reversi_zero/play_game/EdaxPlayer.py:42-58 | column c of row r holds square 8r + c |
| `BitboardFen.TerminatedIsJoin` | src/reversi_zero/play_game/EdaxPlayer.py:61-62 | rows each followed by '/', minus the last character, are the rows joined by '/' |
| `BitboardFen.DecodeEncodeRow` | src/reversi_zero/play_game/EdaxPlayer.py:43-60 | expanding digits into empty squares turns a row encoding back into the pending empties followed by the row's squares |
| `BitboardFen.EncodeRowAlphabet` | src/reversi_zero/play_game/EdaxPlayer.py:43-60 | a row encoding uses only 'p', 'P' and the digits 1 to 8 |
| `BitboardFen.EncodeRowNoAdjacentDigits` | src/reversi_zero/play_game/EdaxPlayer.py:46-60 | the pending count is flushed before every stone and at the row end, so no two digits are adjacent |
| `BitboardFen.RowShape` | src/reversi_zero/play_game/EdaxPlayer.py:43-60 | each row segment's digit values plus stones sum to 8, has no adjacent digits, uses only the row alphabet, and decodes to the row's squares |
| `BitboardFen.FenLayout` | src/reversi_zero/play_game/EdaxPlayer.py:61-63 | the notation always ends in " b - - 0 1", and the rest splits at '/' into exactly the eight row segments |
| `BitboardFen.FenSquare` | src/reversi_zero/play_game/EdaxPlayer.py:42-63 | square s is read back from row s/8, column s%8: black if its black bit is set (even when the white one is too), else white, else empty |
| `Coords.FileIndex` | src/reversi_zero/play_game/EdaxPlayer.py:175 | `"abcdefgh".index(letter)` succeeds exactly for the eight file letters and returns the letter's position |
| `Coords.DigitValue` | src/reversi_zero/play_game/EdaxPlayer.py:176 | `int(num)` of one character succeeds exactly for a decimal digit and returns its value |
| `Coords.ConvToCoord` | src/reversi_zero/play_game/EdaxPlayer.py:172-177 | IndexError exactly for tokens shorter than two characters; ValueError exactly for a bad file letter or rank digit; otherwise x in 0..7 and y in -1..8 taken from the first two characters |
| `Coords.CoordToConv` | src/reversi_zero/play_game/EdaxPlayer.py:179-183 | fails with IndexError exactly when x is outside -8..7; otherwise a file letter followed by `str(y + 1)` |
| `Coords.ConvToPos` | src/reversi_zero/play_game/EdaxPlayer.py:164-166 | succeeds exactly when `conv_to_coord` does, with the same error otherwise, and gives an index in -8..71 |
| `Coords.PosToConv` | src/reversi_zero/play_game/EdaxPlayer.py:168-170 | succeeds exactly for indices -64..63 |
| `Coords.EngineCoord` | src/reversi_zero/play_game/EdaxPlayer.py:79 | every board index 0..63 maps to an on-board engine square |
| `Coords.BoardIndex` | src/reversi_zero/play_game/EdaxPlayer.py:74 | every on-board engine square maps to a board index 0..63 |
| `Coords.CoordTokenRoundTrip` | src/reversi_zero/play_game/EdaxPlayer.py:172-183 | `conv_to_coord(coord_to_conv(x, y)) == (x, y)` for x, y in 0..7, with a two-character token |
| `Coords.TokenCoordRoundTrip` | src/reversi_zero/play_game/EdaxPlayer.py:172-183 | a two-character token that converts to a square converts back to itself |
| `Coords.PosToConvTransposes` | src/reversi_zero/play_game/EdaxPlayer.py:164-170 | `conv_to_pos(pos_to_conv(p))` is `(p % 8) * 8 + p / 8` for p in 0..63 |
| `Coords.PosToConvNotInverse` | src/reversi_zero/play_game/EdaxPlayer.py:164-170 | index 1 becomes "a2", which reads back as index 8 |
| `Coords.BoardIndexOfEngineCoord` | src/reversi_zero/play_game/EdaxPlayer.py:79-83 | the flip `x = p % 8, y = 7 - p // 8` followed by `(7 - y) * 8 + x` returns p |
| `Coords.EngineCoordOfBoardIndex` | src/reversi_zero/play_game/EdaxPlayer.py:74-79 | the flip `(7 - y) * 8 + x` followed by the split of `action_pos` returns the square, for x in 0..7 |
| `Edax.FirstMoveIndex` | src/reversi_zero/play_game/EdaxPlayer.py:131-135 | the scan stops at the first line that starts with "move" once stripped; no line before it does |
| `Edax.DecodeReply` | src/reversi_zero/play_game/EdaxPlayer.py:150-162 | NoOutput exactly for an empty token; a pass exactly for "@@"; otherwise the square `conv_to_coord` gives, or its error |
| `Edax.BoardIndexOf` | src/reversi_zero/play_game/EdaxPlayer.py:74 | `(7 - mv[1]) * 8 + mv[0]` succeeds only for a square; a pass (-1) or None is not subscriptable; an index, flipped back, gives the square |
| `Edax.RouteOf` | src/reversi_zero/play_game/EdaxPlayer.py:87-94 | no square and `start` is the engine's opening move; no square and not `start` is a pass; a square in range is a user move; anything else fails an assert |
| `Edax.HandshakeCommands` | src/reversi_zero/play_game/EdaxPlayer.py:223-251 | `engine_init` writes nothing unless the process is seen running; then "protover 2" first, and after a handshake the five commands that set up the opening position `std_start_fen` |
| `Edax.EdaxPlayer.constructor` | src/reversi_zero/play_game/EdaxPlayer.py:12-22 | keeps the time and depth settings and runs `engine_init`: the engine is active only after a full handshake, `self.p` exists once a process was spawned, `self.op` only once the process was seen running, and the handshake commands are what was sent |
| `Edax.EdaxPlayer.EngineInit` | src/reversi_zero/play_game/EdaxPlayer.py:185-252 | clears `engine_active` and sets it again only after a full handshake; creates `self.p` once spawned and resets `self.op` once the process runs, keeping both from an earlier launch otherwise; sends the handshake commands |
| `Edax.EdaxPlayer.Command` | src/reversi_zero/play_game/EdaxPlayer.py:254-262 | the command reaches the engine when `self.p` exists; without it the AttributeError is swallowed and nothing is sent |
| `Edax.EdaxPlayer.ScanOp` | src/reversi_zero/play_game/EdaxPlayer.py:131-135 | `mv` becomes `l[7:]` of the first move line of the given lines, and is unchanged when there is none |
| `Edax.EdaxPlayer.GetMove` | src/reversi_zero/play_game/EdaxPlayer.py:129-162 | without `self.op` raises AttributeError and changes nothing; otherwise the retry loop leaves `mv` at `FinalToken`, empties the pending lines and returns `MoveFrom` of the pending lines and the batches |
| `Edax.EdaxPlayer.Start` | src/reversi_zero/play_game/EdaxPlayer.py:97-101 | sends "go" (if there is a pipe), clears `mv` and returns the engine's move, or AttributeError without `self.op` |
| `Edax.EdaxPlayer.OppoPassOnMove` | src/reversi_zero/play_game/EdaxPlayer.py:123-127 | sends "usermove @@@@" (if there is a pipe), clears `mv` and returns the engine's reply, or AttributeError without `self.op` |
| `Edax.EdaxPlayer.OppoMove` | src/reversi_zero/play_game/EdaxPlayer.py:103-121 | an inactive engine is relaunched; if that does not complete the handshake, returns None with only the relaunch's effects; otherwise sends "usermove" with the square's token and returns the engine's reply, with the pending lines emptied by a relaunch; the engine stays active |
| `Edax.EdaxPlayer.ActionXy` | src/reversi_zero/play_game/EdaxPlayer.py:86-95 | routes to `start`, `oppo_pass_on_move` or `oppo_move` as `RouteOf` says, with each one's commands, new `mv`, `op` and engine state; a rejected route raises AssertionError and changes nothing |
| `Edax.EdaxPlayer.ActionPos` | src/reversi_zero/play_game/EdaxPlayer.py:77-84 | an index in 0..63 is sent as the flipped square's token and the reply flipped back to an index, with the same state changes as `oppo_move`; an index outside 0..63 raises and changes nothing; if the engine is down and is not relaunched, the None reply is not subscriptable |
| `Edax.EdaxPlayer.Action` | src/reversi_zero/play_game/EdaxPlayer.py:66-75 | sends setboard with the notation of the masks, then st, sd and go, empties the pending lines and returns the flipped index of the engine's move, or AttributeError without `self.op` |
| `Edax.AfterRetriesEmpty` | src/reversi_zero/play_game/EdaxPlayer.py:138-149 | from a retry on, the token stays empty exactly when every later retry's token is empty |
| `Edax.NoOutputExactly` | src/reversi_zero/play_game/EdaxPlayer.py:129-151 | NoOutput is raised exactly when neither the pending lines nor any of the 30 retry batches yields a non-empty token |
| `Edax.PendingLinesWin` | src/reversi_zero/play_game/EdaxPlayer.py:131-149 | a token found in the pending lines is the result; no retry batch is looked at |
| `Edax.FirstCarrierFrom` | src/reversi_zero/play_game/EdaxPlayer.py:138-149 | the first non-empty retry token from a given retry on is the result |
| `Edax.FirstCarrierWins` | src/reversi_zero/play_game/EdaxPlayer.py:131-149 | when the pending lines yield nothing, the first retry batch that yields a token decides the move |
| `Edax.LateBatchesIgnored` | src/reversi_zero/play_game/EdaxPlayer.py:138 | batches after the 30th retry cannot change the result |
| `Edax.FirstMoveLineOnly` | src/reversi_zero/play_game/EdaxPlayer.py:131-135 | only the first move line of a batch counts, even when its token is empty |
| `Edax.ShortMoveLineIsNoOutput` | src/reversi_zero/play_game/EdaxPlayer.py:131-151 | a lone "move d3" ends in NoOutput, because `l[7:]` is empty |
| `Edax.PaddedMoveLine` | src/reversi_zero/play_game/EdaxPlayer.py:66-75 | "move   d3" is read as (3, 2), which `action` reports as index 43 |
| `Edax.ReplyRoundTrip` | src/reversi_zero/play_game/EdaxPlayer.py:77-121 | the token sent for a board index in 0..63, when it comes back as the reply, gives that index back |
| `GameModel.PyIndex` | src/reversi_zero/play_game/game_model.py:128 | `values[action]` succeeds exactly for indices -len..len-1 |
| `GameModel.StoneOn` | src/reversi_zero/play_game/game_model.py:60-69 | AssertionError exactly when `py * 8 + px` is outside 0..63; otherwise black exactly when the black bit is set, white exactly when only the white bit is set, else None |
| `GameModel.AvailableIn` | src/reversi_zero/play_game/game_model.py:75-83 | false for any square outside 0..63 |
| `GameModel.PlayWithHuman.GetStateOfNextPlayer` | src/reversi_zero/play_game/game_model.py:131-136 | (black, white) when black is to move, (white, black) otherwise |
| `GameModel.PlayWithHuman.constructor` | src/reversi_zero/play_game/game_model.py:18-26 | no human colour, no observers, a reset environment, no AI, no Edax client, no evaluation or history |
| `GameModel.PlayWithHuman.GameOver` | src/reversi_zero/play_game/game_model.py:52-54 | the game is over exactly when the environment is done |
| `GameModel.PlayWithHuman.NextPlayer` | src/reversi_zero/play_game/game_model.py:56-58 | the side to move is the environment's |
| `GameModel.PlayWithHuman.AddObserver` | src/reversi_zero/play_game/game_model.py:28-29 | the observer is appended to the list |
| `GameModel.PlayWithHuman.NotifyAll` | src/reversi_zero/play_game/game_model.py:31-33 | the callbacks made are the event to every observer, in list order |
| `GameModel.PlayWithHuman.StartGame` | src/reversi_zero/play_game/game_model.py:35-40 | the human is black exactly when `human_is_black`; a reset environment, an AI, a new Edax client with the default settings in the state its launch leaves, and `act` set to None |
| `GameModel.PlayWithHuman.PlayNextTurn` | src/reversi_zero/play_game/game_model.py:42-50 | the callbacks made are those of `TurnEvents` for the current state, event by event |
| `GameModel.PlayWithHuman.Stone` | src/reversi_zero/play_game/game_model.py:60-69 | AssertionError exactly outside 0..63; otherwise the owner of the square as the Edax notation's scan reads it, black first |
| `GameModel.PlayWithHuman.Available` | src/reversi_zero/play_game/game_model.py:75-83 | never true outside 0..63; on the human's own turn, true exactly for a legal move of the side to move |
| `GameModel.PlayWithHuman.Move` | src/reversi_zero/play_game/game_model.py:85-105 | raises outside the board; returns False off the human's turn; without Edax does nothing; in these cases the Edax client is untouched; with Edax sends the engine the mover's view, steps with its index and sets `act` to 'pass', leaving the client as `action` does |
| `GameModel.PlayWithHuman.MoveByAi` | src/reversi_zero/play_game/game_model.py:119-129 | returns False on the human's turn; otherwise steps with the AI's action for (mover, opponent), records it and the thought, and sets the evaluation to `values[action]` or raises IndexError |
| `GameModel.BroadcastInOrder` | src/reversi_zero/play_game/game_model.py:31-33 | one callback per observer, the k-th to the k-th observer added |
| `GameModel.TurnEventsOrder` | src/reversi_zero/play_game/game_model.py:42-50 | update comes first; over exactly when the game is done, and then nothing more; ai_move exactly when the game goes on and the human is not to move |
| `GameModel.TurnCallbacks` | src/reversi_zero/play_game/game_model.py:42-50 | a turn notifies every observer of update before anything else, then of over or ai_move as the state says |
| `GameModel.OrientedSwaps` | src/reversi_zero/play_game/game_model.py:131-136 | (black, white) when black is to move, (white, black) when white is |
| `GameModel.OwnMaskIsMoversStones` | src/reversi_zero/play_game/game_model.py:131-136 | when no square is in both masks, a square is in the first mask exactly when the mover's stone is there, and in the second exactly when the opponent's is |
| `GameModel.AvailableUsesHumanColour` | src/reversi_zero/play_game/game_model.py:75-83 | legal moves are asked for the human's colour (masks swapped when the human is white), whoever is to move |
| `GameModel.StoneMatchesFen` | src/reversi_zero/play_game/game_model.py:60-69 | `stone(px, py)` is what row py, column px of the Edax notation of the same masks decodes to |

## Left out

- `engine_init` is modelled by its outcome only. The path check, the subprocess launch and its argument list (with the options file), the `poll`/`sleep` waits and the parsing of the `feature` lines are not modelled; how far the launch gets is a `Launch` parameter of the constructor and of `OppoMove`.
- The reader thread (`read_stdout`) and the one-second sleeps are not modelled. The lines that reach `self.op` during each wait are given as a batch. A line that arrives between a scan and `self.op = []` is lost in the source; the model does not represent that race. Lines that arrive between requests are not represented either, so a request always starts with no pending lines: a `move` line that arrives after a `NoOutput` and is taken as the answer to the next request is a behaviour of the source the model cannot show.
- `Edax.EdaxPlayer.Command`: a write that fails with IOError (for example to a process that has exited) is swallowed in the source. The model records it as sent.
- `close`, the interactive `main`, `dprint` and all logging are side effects only and are not modelled. The first definition of `command` is shadowed by the second and is not modelled either.
- `Coords.DigitValue`: Python's `int()` also accepts non-ASCII decimal digits. The model treats them as ValueError.
- `GameModel.PlayWithHuman.constructor`: the model does not load a model (`_load_model`), so it cannot raise "No models found!".
- `GameModel.PlayWithHuman.Available`: `available` returns the integer `legal_moves & (1 << pos)`, which callers only test for truth; the model returns that truth value.
- Masks are `nat`s: the negative Python integers that `bitboard_to_fen` and `stone` would also accept (and shift arithmetically) are outside the model.
- `number_of_black_and_white` reads the environment's observation, which is outside the model.
- The environment's `reset` and `step`, `find_correct_moves`, and the AI's `action` and `ask_thought_about` are modelled as uninterpreted pure functions. Any state the AI keeps between its search and `ask_thought_about` is not modelled.
- Observers are numbers, and callbacks are recorded rather than run. The model assumes an observer does not call back into `PlayWithHuman` or add observers while `notify_all` runs.
- Coordinates are integers. The truncation that `int(py * 8 + px)` applies to non-integral arguments is not modelled, and neither are the settings `time_per_move` and `search_depth` as non-integers.
- `self.mv` starts as the empty string. In the source it does not exist until the first request, and every request clears it before it is read.

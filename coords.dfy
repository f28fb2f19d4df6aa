/**
 * Squares as the Edax client names them. A square is `(x, y)` with `x` the file
 * (0 = 'a') and `y` the rank counted from 0; the engine writes it as a letter
 * followed by `y + 1` ("d6" is (3, 5)). The board's own index counts rows from
 * the other side, hence the flips used by `action` and `action_pos`.
 */
module Coords {
  import opened Results
  import opened Text

  const Files := "abcdefgh"

  datatype Coord = Coord(x: int, y: int)

  /** The Python exceptions a malformed token raises. */
  datatype TokenError = IndexError | ValueError

  /** `"abcdefgh".index(letter)`, or `None` where Python raises `ValueError`. */
  function FileIndex(letter: char): (r: Option<nat>)
    ensures r.Some? <==> letter in Files
    ensures r.Some? ==> r.value < 8 && Files[r.value] == letter
  {
    if 'a' <= letter <= 'h' then Some(letter as int - 'a' as int) else None
  }

  /** `int(num)` for a one-character string, or `None` where Python raises `ValueError`. */
  function DigitValue(num: char): (r: Option<nat>)
    ensures r.Some? <==> IsDigit(num)
    ensures r.Some? ==> r.value <= 9 && DigitChar(r.value) == num
  {
    if IsDigit(num) then Some(num as int - '0' as int) else None
  }

  /** `EdaxPlayer.conv_to_coord`: the first character is the file, the second the rank. */
  function ConvToCoord(mv: string): (r: Result<Coord, TokenError>)
    ensures r == Err(IndexError) <==> |mv| < 2
    ensures r == Err(ValueError) <==> |mv| >= 2 && (mv[0] !in Files || !IsDigit(mv[1]))
    ensures r.Ok? ==> 0 <= r.value.x < 8 && -1 <= r.value.y <= 8
    ensures r.Ok? ==> Files[r.value.x] == mv[0] && DigitChar(r.value.y + 1) == mv[1]
  {
    if |mv| < 2 then Err(IndexError)
    else
      match (FileIndex(mv[0]), DigitValue(mv[1]))
      case (Some(x), Some(n)) => Ok(Coord(x, n as int - 1))
      case _ => Err(ValueError)
  }

  /**
   * `EdaxPlayer.coord_to_conv`: the letter `"abcdefgh"[x]` (negative `x` counts
   * from the end, as Python indexing does) followed by `str(y + 1)`.
   */
  function CoordToConv(x: int, y: int): (r: Result<string, TokenError>)
    ensures r.Err? <==> !(-8 <= x < 8)
    ensures r.Err? ==> r.error == IndexError
    ensures r.Ok? ==> |r.value| >= 2 && r.value[0] in Files && r.value[1..] == IntString(y + 1)
  {
    if -8 <= x < 8 then
      var letter := Files[if x < 0 then x + 8 else x];
      Ok([letter] + IntString(y + 1))
    else
      Err(IndexError)
  }

  /** `EdaxPlayer.conv_to_pos`: the index `y * 8 + x` of a token's square. */
  function ConvToPos(mv: string): (r: Result<int, TokenError>)
    ensures r.Ok? <==> ConvToCoord(mv).Ok?
    ensures r.Err? ==> r.error == ConvToCoord(mv).error
    ensures r.Ok? ==> -8 <= r.value < 72
  {
    match ConvToCoord(mv)
    case Ok(c) => Ok(c.y * 8 + c.x)
    case Err(e) => Err(e)
  }

  /** `EdaxPlayer.pos_to_conv`: splits the index as `x, y = pos // 8, pos % 8`. */
  function PosToConv(pos: int): (r: Result<string, TokenError>)
    ensures r.Ok? <==> -64 <= pos < 64
  {
    CoordToConv(pos / 8, pos % 8)
  }

  /** The engine square of board index `pos`, as `action_pos` computes it. */
  function EngineCoord(pos: int): (c: Coord)
    ensures 0 <= pos < 64 ==> 0 <= c.x < 8 && 0 <= c.y < 8
  {
    Coord(pos % 8, 7 - pos / 8)
  }

  /** The board index of an engine square, `(7 - mv[1]) * 8 + mv[0]` in `action` and `action_pos`. */
  function BoardIndex(c: Coord): (pos: int)
    ensures 0 <= c.x < 8 && 0 <= c.y < 8 ==> 0 <= pos < 64
  {
    (7 - c.y) * 8 + c.x
  }

  /** Every on-board square survives being written as a token and read back. */
  lemma CoordTokenRoundTrip(x: int, y: int)
    requires 0 <= x < 8 && 0 <= y < 8
    ensures CoordToConv(x, y).Ok?
    ensures var mv := CoordToConv(x, y).value;
      |mv| == 2 && ConvToCoord(mv) == Ok(Coord(x, y))
  {
    var mv := CoordToConv(x, y).value;
    assert mv == [Files[x], DigitChar(y + 1)];
    assert FileIndex(mv[0]) == Some(x);
  }

  /** A two-character token that reads as a square is written back unchanged. */
  lemma TokenCoordRoundTrip(mv: string)
    requires |mv| == 2 && ConvToCoord(mv).Ok?
    ensures var c := ConvToCoord(mv).value;
      CoordToConv(c.x, c.y) == Ok(mv)
  {
    var c := ConvToCoord(mv).value;
    assert 0 <= c.y + 1 <= 9;
    assert IntString(c.y + 1) == [mv[1]];
    assert mv == [mv[0]] + [mv[1]];
  }

  /**
   * `pos_to_conv` takes the row from `pos // 8` as the file, so `conv_to_pos`
   * does not undo it: the two compose to the transpose of the board.
   */
  lemma PosToConvTransposes(pos: int)
    requires 0 <= pos < 64
    ensures PosToConv(pos).Ok?
    ensures ConvToPos(PosToConv(pos).value) == Ok((pos % 8) * 8 + pos / 8)
  {
    CoordTokenRoundTrip(pos / 8, pos % 8);
  }

  /** Index 1 ("a2") comes back as index 8. */
  lemma PosToConvNotInverse()
    ensures PosToConv(1) == Ok("a2")
    ensures ConvToPos("a2") == Ok(8)
  {
    PosToConvTransposes(1);
    assert PosToConv(1).value == [Files[0], DigitChar(2)];
  }

  /** The flip in `action_pos` followed by the one in `action` gives back every index. */
  lemma BoardIndexOfEngineCoord(pos: int)
    ensures BoardIndex(EngineCoord(pos)) == pos
  {
  }

  /** And the other way round, for any square on one of the eight files. */
  lemma EngineCoordOfBoardIndex(c: Coord)
    requires 0 <= c.x < 8
    ensures EngineCoord(BoardIndex(c)) == c
  {
  }
}

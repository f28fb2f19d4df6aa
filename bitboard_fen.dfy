/**
 * The board notation sent to Edax with `setboard`: `EdaxPlayer.bitboard_to_fen`
 * turns a pair of occupancy masks into eight run-length encoded rows joined by
 * '/', followed by a fixed side-to-move suffix.
 *
 * Masks are Python integers, so they are modelled as unbounded `nat`s:
 * `mask & 1` is `mask % 2 == 1` and `mask >>= 1` is `mask / 2`.
 */
module BitboardFen {
  import opened Text

  /** `x >> n` */
  function Shift(x: nat, n: nat): nat
  {
    if n == 0 then x else Shift(x, n - 1) / 2
  }

  /** `x & (1 << s) != 0`: square `s` is set in mask `x`. */
  predicate Bit(x: nat, s: nat)
  {
    Shift(x, s) % 2 == 1
  }

  /** What the scan sees on one square. */
  datatype Cell = Empty | BlackStone | WhiteStone

  /** Square `s` as the scan reads it: the first mask wins when both bits are set. */
  function CellAt(black: nat, white: nat, s: nat): Cell
  {
    if Bit(black, s) then BlackStone else if Bit(white, s) then WhiteStone else Empty
  }

  /** The low `n` squares of the masks, bit 0 first, as the scan meets them. */
  function Scan(black: nat, white: nat, n: nat): (cells: seq<Cell>)
    ensures |cells| == n
  {
    if n == 0 then []
    else
      var cell := if black % 2 == 1 then BlackStone else if white % 2 == 1 then WhiteStone else Empty;
      [cell] + Scan(black / 2, white / 2, n - 1)
  }

  /** The eight squares of row `row`, column 0 first (bits 8*row .. 8*row+7). */
  function RowCells(black: nat, white: nat, row: nat): seq<Cell>
  {
    Scan(Shift(black, 8 * row), Shift(white, 8 * row), 8)
  }

  /** `str(bit_cnt)` if a count of empty squares is pending, nothing otherwise. */
  function Flush(pending: nat): string
    requires pending <= 9
  {
    if pending == 0 then "" else [DigitChar(pending)]
  }

  /**
   * What the inner loop of `bitboard_to_fen` writes for the rest of a row,
   * with `pending` empty squares already counted but not yet written.
   */
  function EncodeRow(cells: seq<Cell>, pending: nat): string
    requires pending + |cells| <= 8
  {
    if cells == [] then Flush(pending)
    else
      match cells[0]
      case Empty => EncodeRow(cells[1..], pending + 1)
      case BlackStone => Flush(pending) + "p" + EncodeRow(cells[1..], 0)
      case WhiteStone => Flush(pending) + "P" + EncodeRow(cells[1..], 0)
  }

  /** The eight row encodings, top row (bits 0..7) first. */
  function Rows(black: nat, white: nat): (rows: seq<string>)
    ensures |rows| == 8
  {
    seq(8, r requires 0 <= r < 8 => EncodeRow(RowCells(black, white, r), 0))
  }

  /** Each row followed by '/', as the outer loop leaves `line` before `line[:-1]`. */
  function Terminated(rows: seq<string>): string
  {
    if rows == [] then "" else Terminated(rows[..|rows| - 1]) + rows[|rows| - 1] + "/"
  }

  /** `"/".join(rows)` */
  function Join(rows: seq<string>): string
  {
    if rows == [] then ""
    else if |rows| == 1 then rows[0]
    else Join(rows[..|rows| - 1]) + "/" + rows[|rows| - 1]
  }

  /** `s.split(sep)` */
  function Split(s: string, sep: char): (parts: seq<string>)
    ensures |parts| >= 1
  {
    if s == [] then [""]
    else
      var init := Split(s[..|s| - 1], sep);
      if s[|s| - 1] == sep then init + [""]
      else init[..|init| - 1] + [init[|init| - 1] + [s[|s| - 1]]]
  }

  /** The side-to-move suffix, the same whoever is to move. */
  const Suffix := " b - - 0 1"

  /** The whole notation `bitboard_to_fen(black, white)` returns. */
  function Fen(black: nat, white: nat): string
  {
    Join(Rows(black, white)) + Suffix
  }

  /** `EdaxPlayer.bitboard_to_fen`: bit 0 first, row by row, shifting both masks. */
  method BitboardToFen(black: nat, white: nat) returns (line: string)
    ensures line == Fen(black, white)
  {
    ghost var rows := Rows(black, white);
    var b, w := black, white;
    line := "";
    var i := 0;
    while i < 8
      invariant 0 <= i <= 8
      invariant b == Shift(black, 8 * i) && w == Shift(white, 8 * i)
      invariant line == Terminated(rows[..i])
    {
      var segment;
      segment, b, w := ScanRow(b, w);
      assert segment == rows[i];
      ShiftAdd(black, 8 * i, 8);
      ShiftAdd(white, 8 * i, 8);
      assert 8 * i + 8 == 8 * (i + 1);
      line := line + segment + "/";
      assert rows[..i + 1][..i] == rows[..i];
      i := i + 1;
    }
    assert rows[..8] == rows;
    TerminatedIsJoin(rows);
    line := line[..|line| - 1];
    line := line + Suffix;
  }

  /**
   * The inner loop of `bitboard_to_fen`: encodes the row held in the low eight
   * bits of the masks and hands the masks back shifted right by eight.
   */
  method ScanRow(black: nat, white: nat) returns (segment: string, b: nat, w: nat)
    ensures segment == EncodeRow(Scan(black, white, 8), 0)
    ensures b == Shift(black, 8) && w == Shift(white, 8)
  {
    ghost var target := EncodeRow(Scan(black, white, 8), 0);
    b, w := black, white;
    segment := "";
    var bitCnt := 0;
    var j := 0;
    while j < 8
      invariant 0 <= j <= 8 && bitCnt <= j
      invariant b == Shift(black, j) && w == Shift(white, j)
      invariant target == segment + EncodeRow(Scan(b, w, 8 - j), bitCnt)
    {
      EncodeScanStep(b, w, 8 - j, bitCnt);
      ghost var before, pending := segment, bitCnt;
      ghost var rest := Scan(b / 2, w / 2, 7 - j);
      if b % 2 == 1 {
        if bitCnt > 0 {
          segment := segment + [DigitChar(bitCnt)];
          bitCnt := 0;
        }
        segment := segment + "p";
        assert segment == before + (Flush(pending) + "p");
        AppendAssoc(before, Flush(pending) + "p", EncodeRow(rest, 0));
      } else if w % 2 == 1 {
        if bitCnt > 0 {
          segment := segment + [DigitChar(bitCnt)];
          bitCnt := 0;
        }
        segment := segment + "P";
        assert segment == before + (Flush(pending) + "P");
        AppendAssoc(before, Flush(pending) + "P", EncodeRow(rest, 0));
      } else {
        bitCnt := bitCnt + 1;
      }
      b := b / 2;
      w := w / 2;
      j := j + 1;
    }
    if bitCnt > 0 {
      segment := segment + [DigitChar(bitCnt)];
    }
  }

  /** One step of the scan: what the lowest square adds to the row encoding. */
  lemma EncodeScanStep(black: nat, white: nat, n: nat, pending: nat)
    requires 0 < n && pending + n <= 8
    ensures var rest := Scan(black / 2, white / 2, n - 1);
      EncodeRow(Scan(black, white, n), pending) ==
        if black % 2 == 1 then Flush(pending) + "p" + EncodeRow(rest, 0)
        else if white % 2 == 1 then Flush(pending) + "P" + EncodeRow(rest, 0)
        else EncodeRow(rest, pending + 1)
  {
    assert Scan(black, white, n)[1..] == Scan(black / 2, white / 2, n - 1);
  }

  lemma AppendAssoc<T>(a: seq<T>, b: seq<T>, c: seq<T>)
    ensures (a + b) + c == a + (b + c)
  {
  }

  /** Shifting by `m` and then by `n` is shifting by `m + n`. */
  lemma {:induction false} ShiftAdd(x: nat, m: nat, n: nat)
    ensures Shift(Shift(x, m), n) == Shift(x, m + n)
  {
    if n > 0 {
      ShiftAdd(x, m, n - 1);
    }
  }

  /** The `k`-th square the scan meets is the one bit `k` of the masks describes. */
  lemma {:induction false} ScanAt(black: nat, white: nat, n: nat, k: nat)
    requires k < n
    ensures Scan(black, white, n)[k] == CellAt(black, white, k)
  {
    if k > 0 {
      assert Scan(black, white, n)[k] == Scan(black / 2, white / 2, n - 1)[k - 1];
      ScanAt(black / 2, white / 2, n - 1, k - 1);
      ShiftAdd(black, 1, k - 1);
      ShiftAdd(white, 1, k - 1);
      assert Shift(black, 1) == black / 2 && Shift(white, 1) == white / 2;
    }
  }

  /** Column `c` of row `r` is square `8 * r + c`. */
  lemma RowCellsAt(black: nat, white: nat, r: nat, c: nat)
    requires c < 8
    ensures RowCells(black, white, r)[c] == CellAt(black, white, 8 * r + c)
  {
    ScanAt(Shift(black, 8 * r), Shift(white, 8 * r), 8, c);
    ShiftAdd(black, 8 * r, c);
    ShiftAdd(white, 8 * r, c);
  }

  lemma {:induction false} TerminatedIsJoin(rows: seq<string>)
    requires |rows| >= 1
    ensures Terminated(rows) == Join(rows) + "/"
  {
    if |rows| > 1 {
      TerminatedIsJoin(rows[..|rows| - 1]);
    }
  }

  // ---------------------------------------------------------------------------
  // Reading a row back

  /** A run of `n` empty squares. */
  function Empties(n: nat): (r: seq<Cell>)
    ensures |r| == n && forall k :: 0 <= k < n ==> r[k] == Empty
  {
    if n == 0 then [] else [Empty] + Empties(n - 1)
  }

  /** The squares one notation character stands for. */
  function DecodeChar(c: char): seq<Cell>
  {
    if c == 'p' then [BlackStone]
    else if c == 'P' then [WhiteStone]
    else if IsDigit(c) then Empties(c as int - '0' as int)
    else []
  }

  /** Expands a row encoding back into its squares. */
  function DecodeRow(s: string): seq<Cell>
  {
    if s == [] then [] else DecodeChar(s[0]) + DecodeRow(s[1..])
  }

  /** The value a row character contributes: its digit, or 1 for a stone. */
  function CharWeight(c: char): nat
  {
    if c == 'p' || c == 'P' then 1 else if IsDigit(c) then c as int - '0' as int else 0
  }

  /** The digit values plus the number of stones in a row encoding. */
  function Weight(s: string): nat
  {
    if s == [] then 0 else CharWeight(s[0]) + Weight(s[1..])
  }

  predicate RowChar(c: char)
  {
    c == 'p' || c == 'P' || ('1' <= c <= '8')
  }

  predicate NoAdjacentDigits(s: string)
  {
    forall k :: 1 <= k < |s| ==> !(IsDigit(s[k - 1]) && IsDigit(s[k]))
  }

  lemma {:induction false} DecodeRowConcat(a: string, b: string)
    ensures DecodeRow(a + b) == DecodeRow(a) + DecodeRow(b)
  {
    if a == [] {
      assert a + b == b;
    } else {
      assert (a + b)[1..] == a[1..] + b;
      DecodeRowConcat(a[1..], b);
    }
  }

  lemma EmptiesSnoc(n: nat)
    ensures Empties(n + 1) == Empties(n) + [Empty]
  {
    assert Empties(n + 1) == [Empty] + Empties(n);
  }

  lemma DecodeFlush(pending: nat)
    requires pending <= 8
    ensures DecodeRow(Flush(pending)) == Empties(pending)
  {
    if pending > 0 {
      assert DecodeRow(Flush(pending)) == DecodeChar(DigitChar(pending)) + DecodeRow([]);
    }
  }

  lemma DecodeFlushed(pending: nat, c: char, rest: string)
    requires pending <= 8
    ensures DecodeRow(Flush(pending) + [c] + rest) == Empties(pending) + DecodeChar(c) + DecodeRow(rest)
  {
    DecodeRowConcat(Flush(pending) + [c], rest);
    DecodeRowConcat(Flush(pending), [c]);
    assert DecodeRow([c]) == DecodeChar(c) + DecodeRow([]);
    DecodeFlush(pending);
  }

  /** Decoding a row encoding gives back the pending empties and the squares, in order. */
  lemma {:induction false} DecodeEncodeRow(cells: seq<Cell>, pending: nat)
    requires pending + |cells| <= 8
    ensures DecodeRow(EncodeRow(cells, pending)) == Empties(pending) + cells
  {
    if cells == [] {
      DecodeFlush(pending);
    } else {
      var rest := cells[1..];
      assert cells == [cells[0]] + rest;
      match cells[0]
      case Empty =>
        DecodeEncodeRow(rest, pending + 1);
        EmptiesSnoc(pending);
      case BlackStone =>
        DecodeEncodeRow(rest, 0);
        DecodeFlushed(pending, 'p', EncodeRow(rest, 0));
      case WhiteStone =>
        DecodeEncodeRow(rest, 0);
        DecodeFlushed(pending, 'P', EncodeRow(rest, 0));
    }
  }

  /** The weight of any string is the number of squares it decodes to. */
  lemma {:induction false} WeightIsDecodedLength(s: string)
    ensures Weight(s) == |DecodeRow(s)|
  {
    if s != [] {
      WeightIsDecodedLength(s[1..]);
    }
  }

  /** A row encoding uses only '1'..'8', 'p' and 'P'. */
  lemma {:induction false} EncodeRowAlphabet(cells: seq<Cell>, pending: nat)
    requires pending + |cells| <= 8
    ensures forall c | c in EncodeRow(cells, pending) :: RowChar(c)
  {
    if cells != [] {
      match cells[0]
      case Empty => EncodeRowAlphabet(cells[1..], pending + 1);
      case BlackStone => EncodeRowAlphabet(cells[1..], 0);
      case WhiteStone => EncodeRowAlphabet(cells[1..], 0);
    }
  }

  lemma NoAdjacentDigitsConcat(a: string, b: string)
    requires NoAdjacentDigits(a) && NoAdjacentDigits(b)
    requires a == [] || b == [] || !IsDigit(a[|a| - 1])
    ensures NoAdjacentDigits(a + b)
  {
    var s := a + b;
    forall k | 1 <= k < |s|
      ensures !(IsDigit(s[k - 1]) && IsDigit(s[k]))
    {
      if k < |a| {
        assert s[k - 1] == a[k - 1] && s[k] == a[k];
      } else if k == |a| {
        assert s[k - 1] == a[|a| - 1];
      } else {
        assert s[k - 1] == b[k - 1 - |a|] && s[k] == b[k - |a|];
      }
    }
  }

  /** A pending count is flushed before every stone and at the row end, so digits never touch. */
  lemma {:induction false} EncodeRowNoAdjacentDigits(cells: seq<Cell>, pending: nat)
    requires pending + |cells| <= 8
    ensures NoAdjacentDigits(EncodeRow(cells, pending))
  {
    if cells != [] {
      match cells[0]
      case Empty =>
        EncodeRowNoAdjacentDigits(cells[1..], pending + 1);
      case BlackStone =>
        EncodeRowNoAdjacentDigits(cells[1..], 0);
        NoAdjacentDigitsConcat(Flush(pending) + "p", EncodeRow(cells[1..], 0));
      case WhiteStone =>
        EncodeRowNoAdjacentDigits(cells[1..], 0);
        NoAdjacentDigitsConcat(Flush(pending) + "P", EncodeRow(cells[1..], 0));
    }
  }

  // ---------------------------------------------------------------------------
  // Splitting the board field at '/'

  /** Appending one character either starts a new part or extends the last one. */
  lemma SplitSnoc(s: string, c: char, sep: char)
    ensures var parts := Split(s, sep); var n := |parts|;
      Split(s + [c], sep) ==
        if c == sep then parts + [""] else parts[..n - 1] + [parts[n - 1] + [c]]
  {
    assert (s + [c])[..|s|] == s;
  }

  lemma {:induction false} SplitNoSeparator(a: string, b: string, sep: char)
    requires sep !in b
    ensures var parts := Split(a, sep); var n := |parts|;
      Split(a + b, sep) == parts[..n - 1] + [parts[n - 1] + b]
  {
    var parts := Split(a, sep);
    var n := |parts|;
    if b == [] {
      assert a + b == a;
      assert parts[n - 1] + b == parts[n - 1];
      assert parts[..n - 1] + [parts[n - 1]] == parts;
    } else {
      var b', last := b[..|b| - 1], b[|b| - 1];
      assert a + b == (a + b') + [last];
      assert last in b;
      SplitNoSeparator(a, b', sep);
      SplitSnoc(a + b', last, sep);
      var init := Split(a + b', sep);
      assert |init| == n;
      assert init[..n - 1] == parts[..n - 1];
      assert init[n - 1] + [last] == parts[n - 1] + b;
    }
  }

  lemma SplitAtSeparator(a: string, b: string, sep: char)
    requires sep !in b
    ensures Split(a + [sep] + b, sep) == Split(a, sep) + [b]
  {
    SplitSnoc(a, sep, sep);
    SplitNoSeparator(a + [sep], b, sep);
    var parts := Split(a + [sep], sep);
    assert parts[..|parts| - 1] == Split(a, sep);
    assert parts[|parts| - 1] + b == b;
  }

  /** Splitting a join gives back the parts, when no part holds the separator. */
  lemma {:induction false} SplitJoin(rows: seq<string>)
    requires |rows| >= 1
    requires forall r | r in rows :: '/' !in r
    ensures Split(Join(rows), '/') == rows
  {
    if |rows| == 1 {
      SplitNoSeparator("", rows[0], '/');
      assert "" + rows[0] == rows[0];
    } else {
      var init := rows[..|rows| - 1];
      assert forall r | r in init :: r in rows;
      SplitJoin(init);
      SplitAtSeparator(Join(init), rows[|rows| - 1], '/');
      assert init + [rows[|rows| - 1]] == rows;
    }
  }

  // ---------------------------------------------------------------------------
  // What the notation says about the masks

  /** Every row segment is a well-formed run-length row covering eight squares. */
  lemma RowShape(black: nat, white: nat, r: nat)
    requires r < 8
    ensures var row := Rows(black, white)[r];
      && Weight(row) == 8
      && NoAdjacentDigits(row)
      && (forall c | c in row :: RowChar(c))
      && DecodeRow(row) == RowCells(black, white, r)
  {
    var cells := RowCells(black, white, r);
    DecodeEncodeRow(cells, 0);
    assert Empties(0) + cells == cells;
    WeightIsDecodedLength(EncodeRow(cells, 0));
    EncodeRowNoAdjacentDigits(cells, 0);
    EncodeRowAlphabet(cells, 0);
  }

  /**
   * The notation always ends in the fixed suffix, and what comes before it
   * splits at '/' into exactly the eight row encodings.
   */
  lemma FenLayout(black: nat, white: nat)
    ensures var f := Fen(black, white);
      && |f| >= |Suffix|
      && f[|f| - |Suffix|..] == Suffix
      && Split(f[..|f| - |Suffix|], '/') == Rows(black, white)
  {
    var rows := Rows(black, white);
    forall row | row in rows
      ensures '/' !in row
    {
      var r :| 0 <= r < 8 && rows[r] == row;
      RowShape(black, white, r);
    }
    SplitJoin(rows);
    var f := Fen(black, white);
    assert f[..|f| - |Suffix|] == Join(rows);
  }

  /**
   * Square `s` is read back from row `s / 8`, column `s % 8` of the notation:
   * a stone of the first mask if its bit is set there, else one of the second
   * mask if that bit is set, else empty.
   */
  lemma FenSquare(black: nat, white: nat, s: nat)
    requires s < 64
    ensures var f := Fen(black, white);
      var rows := Split(f[..|f| - |Suffix|], '/');
      |rows| == 8 && |DecodeRow(rows[s / 8])| == 8
      && DecodeRow(rows[s / 8])[s % 8] == CellAt(black, white, s)
  {
    var r, c := s / 8, s % 8;
    assert 8 * r + c == s;
    FenLayout(black, white);
    RowShape(black, white, r);
    RowCellsAt(black, white, r, c);
  }
}

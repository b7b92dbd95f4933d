/** The terminal client's two coordinates for a place in the text: row and column in the list of
    lines, and offset in the document, where each line is followed by a newline. */
module CursorOffset {

  datatype Position = Position(row: nat, col: nat)

  predicate Before(p: Position, q: Position) { p.row < q.row || (p.row == q.row && p.col < q.col) }

  /** The offset of the first character of a row. */
  function Start(lines: seq<string>, row: nat): nat
    requires row <= |lines|
  {
    if row == 0 then 0 else Start(lines, row - 1) + |lines[row - 1]| + 1
  }

  function End(lines: seq<string>): nat { Start(lines, |lines|) }

  function OffsetOf(lines: seq<string>, p: Position): nat
    requires p.row <= |lines|
  {
    Start(lines, p.row) + p.col
  }

  /** A column of an existing line, its end included, or the place after the last newline. */
  predicate InText(lines: seq<string>, p: Position) {
    (p.row < |lines| && p.col <= |lines[p.row]|) || p == Position(|lines|, 0)
  }

  /** The place in the text with that offset, or the place after the text. */
  predicate IsPlace(lines: seq<string>, offset: nat, p: Position) {
    InText(lines, p) && if offset <= End(lines) then OffsetOf(lines, p) == offset else p == Position(|lines|, 0)
  }

  method CursorToOffset(row: nat, col: nat, lines: seq<string>) returns (offset: nat)
    requires row <= |lines|
    ensures offset == OffsetOf(lines, Position(row, col))
  {
    offset := row;
    for i := 0 to row
      invariant offset == Start(lines, i) + row - i
    {
      offset := offset + |lines[i]|;
    }
    offset := offset + col;
  }

  /** The place in the text with the given offset, or the place after the text. */
  method OffsetToCursor(offset: nat, lines: seq<string>) returns (p: Position)
    ensures IsPlace(lines, offset, p)
  {
    var row, col, consumed := 0, 0, 0;
    for i := 0 to |lines|
      invariant row == i && col == 0 && consumed == Start(lines, i) <= offset
    {
      StartGrows(lines, i + 1, |lines|);
      if |lines[i]| + 1 + consumed <= offset {
        row := row + 1;
        consumed := consumed + |lines[i]| + 1;
      } else {
        col := offset - consumed;
        break;
      }
    }
    p := Position(row, col);
  }

  lemma {:induction false} StartGrows(lines: seq<string>, i: nat, j: nat)
    requires i <= j <= |lines|
    ensures Start(lines, i) + (j - i) <= Start(lines, j)
    decreases j
  {
    if i < j { StartGrows(lines, i, j - 1); }
  }

  /** Both maps keep the order, and so are one-to-one on the places in the text. */
  lemma OffsetsKeepOrder(lines: seq<string>, p: Position, q: Position)
    requires InText(lines, p) && InText(lines, q)
    ensures OffsetOf(lines, p) < OffsetOf(lines, q) <==> Before(p, q)
    ensures OffsetOf(lines, p) <= End(lines)
  {
    StartGrows(lines, p.row, |lines|);
    if p.row < |lines| { StartGrows(lines, p.row + 1, |lines|); }
    if p.row < q.row { StartGrows(lines, p.row + 1, q.row); }
    if q.row < p.row { StartGrows(lines, q.row + 1, p.row); }
  }

  /** What `OffsetToCursor` computes, as a function. */
  ghost function PlaceOf(lines: seq<string>, offset: nat): (p: Position)
    ensures IsPlace(lines, offset, p)
  {
    PlaceExists(lines, offset, 0);
    var p :| IsPlace(lines, offset, p);
    p
  }

  lemma {:induction false} PlaceExists(lines: seq<string>, offset: nat, row: nat)
    requires row <= |lines| && Start(lines, row) <= offset
    ensures exists p :: IsPlace(lines, offset, p)
    decreases |lines| - row
  {
    if offset > End(lines) || row == |lines| {
      assert IsPlace(lines, offset, Position(|lines|, 0));
    } else if offset - Start(lines, row) <= |lines[row]| {
      StartGrows(lines, row + 1, |lines|);
      assert IsPlace(lines, offset, Position(row, offset - Start(lines, row)));
    } else {
      PlaceExists(lines, offset, row + 1);
    }
  }

  /** There is no other place with that offset: the method's contract determines its result. */
  lemma PlaceIsUnique(lines: seq<string>, offset: nat, p: Position)
    requires IsPlace(lines, offset, p)
    ensures p == PlaceOf(lines, offset)
  {
    var q := PlaceOf(lines, offset);
    if offset <= End(lines) {
      OffsetsKeepOrder(lines, p, q);
      OffsetsKeepOrder(lines, q, p);
    }
  }

  /** From a position to its offset and back is the identity exactly on the places in the text. */
  lemma CursorRoundTrip(lines: seq<string>, p: Position)
    requires p.row <= |lines|
    ensures PlaceOf(lines, OffsetOf(lines, p)) == p <==> InText(lines, p)
  {
    if InText(lines, p) {
      OffsetsKeepOrder(lines, p, p);
      PlaceIsUnique(lines, OffsetOf(lines, p), p);
    }
  }

  /** From an offset to its position and back is the identity exactly up to the end of the text,
      and later offsets come at later positions. */
  lemma OffsetRoundTrip(lines: seq<string>, offset: nat, later: nat)
    ensures OffsetOf(lines, PlaceOf(lines, offset)) == offset <==> offset <= End(lines)
    ensures offset < later <= End(lines) ==> Before(PlaceOf(lines, offset), PlaceOf(lines, later))
  {
    OffsetsKeepOrder(lines, PlaceOf(lines, offset), PlaceOf(lines, later));
  }
}

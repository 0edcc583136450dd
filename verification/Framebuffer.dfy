// The text screen: 80 by 25 cells of a character and two colours, a cursor kept in two registers, and
// scrolling in place.
module Framebuffer {
  import opened Layout

  const VGA_WIDTH := 80
  const VGA_HEIGHT := 25
  const SCREEN := 2000
  const DEFAULT_FG := 15
  const DEFAULT_BG := 0

  type Cells = s: seq<U16> | |s| == SCREEN witness seq<U16>(SCREEN, _ => 0)

  // A cell. The character is signed: from 128 on its sign bits fill the colour byte.
  function SetEntry(c: Byte, fg: nat, bg: nat): (e: U16)
    requires fg < 16 && bg < 16
  {
    if c >= 128 then 0xFF00 + c else c + 256 * (fg + 16 * bg)
  }

  function CharOf(e: U16): Byte {
    e % 256
  }

  function FgOf(e: U16): (c: nat)
    ensures c < 16
  {
    e / 256 % 16
  }

  function BgOf(e: U16): (c: nat)
    ensures c < 16
  {
    e / 4096
  }

  // What is put in a cell is read back: the character always, the colours unless the character is
  // not ASCII.
  lemma CellRoundTrip(c: Byte, fg: nat, bg: nat)
    requires fg < 16 && bg < 16
    ensures var e := SetEntry(c, fg, bg);
      CharOf(e) == c && ((FgOf(e) == fg && BgOf(e) == bg) <==> (c < 128 || (fg == 15 && bg == 15)))
  {
  }

  function Blank(): U16 {
    SetEntry(0, DEFAULT_FG, DEFAULT_BG)
  }

  // A cell copied by way of its character and colours.
  function Copied(e: U16): (f: U16)
    ensures CharOf(f) == CharOf(e)
  {
    SetEntry(CharOf(e), FgOf(e), BgOf(e))
  }

  // Copying changes a cell exactly when its character is not ASCII and its colours are not all ones.
  lemma CopiedSame(e: U16)
    ensures Copied(e) == e <==> CharOf(e) < 128 || e / 256 == 255
  {
  }

  // What scrolling puts in cell `p`.
  function RowBelow(cells: Cells, p: nat): U16 {
    if p < SCREEN - VGA_WIDTH then Copied(cells[p + VGA_WIDTH]) else Blank()
  }

  // One row up; the last row is blank.
  function Scrolled(cells: Cells): (r: Cells)
    ensures forall p :: 0 <= p < SCREEN ==> r[p] == RowBelow(cells, p)
  {
    seq<U16>(SCREEN, p requires 0 <= p < SCREEN => RowBelow(cells, p))
  }

  class Screen {
    const cells: array<U16>
    // The cursor registers 14 and 15 of the display controller.
    var high: Byte
    var low: Byte

    ghost predicate Valid() {
      cells.Length == SCREEN
    }

    function Cursor(): nat
      reads this
    {
      256 * high + low
    }

    constructor (memory: array<U16>)
      requires memory.Length == SCREEN
      ensures Valid() && cells == memory && Cursor() == 0
    {
      cells := memory;
      high, low := 0, 0;
    }

    method SetCursor(r: Byte, c: Byte)
      modifies this
      ensures VGA_WIDTH * r + c < 0x1_0000 && Cursor() == VGA_WIDTH * r + c
    {
      var pos := r * VGA_WIDTH + c;
      high := pos / 256;
      low := pos % 256;
    }

    method Write(row: Byte, col: Byte, c: Byte, fg: nat, bg: nat)
      requires Valid() && VGA_WIDTH * row + col < SCREEN && fg < 16 && bg < 16
      modifies cells
      ensures cells[..] == old(cells[..])[VGA_WIDTH * row + col := SetEntry(c, fg, bg)]
    {
      cells[row * VGA_WIDTH + col] := SetEntry(c, fg, bg);
    }

    method Clear()
      requires Valid()
      modifies cells
      ensures forall p :: 0 <= p < SCREEN ==> cells[p] == Blank()
    {
      for row := 0 to VGA_HEIGHT
        invariant forall p :: 0 <= p < VGA_WIDTH * row ==> cells[p] == Blank()
      {
        for col := 0 to VGA_WIDTH
          invariant forall p :: 0 <= p < VGA_WIDTH * row + col ==> cells[p] == Blank()
        {
          cells[row * VGA_WIDTH + col] := Blank();
        }
      }
    }

    // Every cell is overwritten by the one below it, from the top down.
    method ScrollDown()
      requires Valid()
      modifies cells
      ensures cells[..] == Scrolled(old(cells[..]))
    {
      hide SetEntry, CharOf, FgOf, BgOf, Scrolled;
      ghost var was := cells[..];
      for i := 0 to VGA_HEIGHT
        invariant forall p :: 0 <= p < VGA_WIDTH * i ==> cells[p] == RowBelow(was, p)
        invariant forall p :: VGA_WIDTH * i <= p < SCREEN ==> cells[p] == was[p]
      {
        for j := 0 to VGA_WIDTH
          invariant forall p :: 0 <= p < VGA_WIDTH * i + j ==> cells[p] == RowBelow(was, p)
          invariant forall p :: VGA_WIDTH * i + j <= p < SCREEN ==> cells[p] == was[p]
        {
          if i == VGA_HEIGHT - 1 {
            Write(i, j, 0, DEFAULT_FG, DEFAULT_BG);
          } else {
            var below := cells[(i + 1) * VGA_WIDTH + j];
            Write(i, j, CharOf(below), FgOf(below), BgOf(below));
          }
        }
      }
    }
  }
}

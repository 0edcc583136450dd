// The keyboard key by key: which scan code gives which character, and what the interrupt then does to each
// cell of the screen, to the buffer and to the cursor.
module Keys {
  import opened Layout
  import opened Framebuffer
  import opened Keyboard
  import opened Echo

  /* Scan codes */

  // The keys in the order of the keyboard's rows; every code that is not listed does nothing.
  lemma KeyMap(code: Byte)
    ensures KeyOf(code) ==
      if code == 0x2A || code == 0x36 then ShiftDown
      else if code == 0xAA || code == 0xB6 then ShiftUp
      else if code == 0x3A then CapsLock
      else if code == 0x0E then Backspace
      else if code == 0x1C then Enter
      else if code == 0x01 then Char(27)
      else if 0x02 <= code <= 0x0D then Char("1234567890-="[code - 0x02] as int)
      else if code == 0x0F then Char(9)
      else if 0x10 <= code <= 0x1B then Char("qwertyuiop[]"[code - 0x10] as int)
      else if 0x1E <= code <= 0x29 then Char("asdfghjkl;'`"[code - 0x1E] as int)
      else if 0x2B <= code <= 0x35 then Char("\\zxcvbnm,./"[code - 0x2B] as int)
      else if code == 0x37 then Char('*' as int)
      else if code == 0x39 then Char(' ' as int)
      else if code == 0x4A then Char('-' as int)
      else if code == 0x4E then Char('+' as int)
      else Other
  {
    hide Ascii;
    if 0x02 <= code <= 0x0D {
      Digits(code);
    } else if 0x10 <= code <= 0x1B {
      TopRow(code);
    } else if 0x1E <= code <= 0x29 {
      HomeRow(code);
    } else if 0x2B <= code <= 0x35 {
      BottomRow(code);
    } else {
      SingleKeys(code);
    }
  }

  lemma Digits(code: Byte)
    requires 0x02 <= code <= 0x0D
    ensures Ascii(code) == "1234567890-="[code - 0x02] as int
  {
    assert code / 16 == 0;
  }

  lemma TopRow(code: Byte)
    requires 0x10 <= code <= 0x1B
    ensures Ascii(code) == "qwertyuiop[]"[code - 0x10] as int
  {
    assert code / 16 == 1;
  }

  lemma HomeRow(code: Byte)
    requires 0x1E <= code <= 0x29
    ensures Ascii(code) == "asdfghjkl;'`"[code - 0x1E] as int
  {
    assert code / 16 == if code < 0x20 then 1 else 2;
  }

  lemma BottomRow(code: Byte)
    requires 0x2B <= code <= 0x35
    ensures Ascii(code) == "\\zxcvbnm,./"[code - 0x2B] as int
  {
    assert code / 16 == if code < 0x30 then 2 else 3;
  }

  lemma SingleKeys(code: Byte)
    requires !(0x02 <= code <= 0x0D || 0x10 <= code <= 0x1B || 0x1E <= code <= 0x29 || 0x2B <= code <= 0x35)
    ensures Ascii(code) ==
      if code == 0x01 then 27 else if code == 0x0E then 8 else if code == 0x0F then 9 else if code == 0x1C then 10
      else if code == 0x37 then 42 else if code == 0x39 then 32 else if code == 0x4A then 45
      else if code == 0x4E then 43 else 0
  {
    var row := code / 16;
    assert code == 16 * row + code % 16;
  }

  // The character that a key adds to the line: a letter is small if shift and caps lock are both on or both
  // off, and a capital if exactly one is; any other character is its own.
  lemma LineTyped(l: Line, c: Byte)
    requires c < 128
    ensures forall k :: 0 <= k < 26 && c == "abcdefghijklmnopqrstuvwxyz"[k] as int ==>
      LineStep(l, Char(c)).text == l.text +
        [if l.shift == l.caps then "abcdefghijklmnopqrstuvwxyz"[k] as int else "ABCDEFGHIJKLMNOPQRSTUVWXYZ"[k] as int]
    ensures !('a' as int <= c <= 'z' as int) ==> LineStep(l, Char(c)).text == l.text + [c]
    ensures LineStep(l, Char(c)).shift == l.shift && LineStep(l, Char(c)).caps == l.caps
  {
  }

  /* Cells */

  // A cell holds the character in its low byte and the colours in its high byte, foreground first; the sign
  // of a character from 128 on fills the high byte. A blank cell is white on black.
  lemma CellLayout(c: Byte, fg: nat, bg: nat)
    requires fg < 16 && bg < 16
    ensures SetEntry(c, fg, bg) == if c < 128 then c + 0x100 * fg + 0x1000 * bg else 0xFF00 + c
    ensures Blank() == 0x0F00
  {
  }

  // Scrolling: each cell is that of the row below, the last row is blank. A character that is not ASCII loses
  // its colours.
  lemma ScrollLayout(cells: Cells, p: nat)
    requires p < 2000
    ensures Scrolled(cells)[p] ==
      if p >= 1920 then 0x0F00
      else if cells[p + 80] % 0x100 < 128 then cells[p + 80]
      else 0xFF00 + cells[p + 80] % 0x100
  {
  }

  /* What the interrupt does when input is on */

  // A character goes to the cell at the cursor and to the buffer, and the cursor moves on; behind the last cell
  // the screen scrolls and the cursor goes to the start of the last row.
  lemma CharEffect(s: Console, code: Byte)
    requires ConsoleOk(s) && s.on && KeyOf(code).Char?
    ensures var c, t := KeyOf(code).c, IsrStep(s, code);
      var x := if 'a' as int <= c <= 'z' as int && s.shift != s.caps then c - 32 else c;
      && t.buffer == s.buffer[s.index := x] && t.index == (if s.index == 255 then 0 else s.index + 1)
      && t.shift == s.shift && t.caps == s.caps && t.on
      && (if s.cursor < 1999 then t.cells == s.cells[s.cursor := 0x0F00 + x] && t.cursor == s.cursor + 1
          else t.cells == Scrolled(s.cells[1999 := 0x0F00 + x]) && t.cursor == 1920)
  {
    hide KeyOf, Scrolled, EraseStep, EnterStep;
  }

  // Enter goes to the start of the next row, or scrolls if there is none, and turns input off.
  lemma EnterEffect(s: Console, code: Byte)
    requires ConsoleOk(s) && s.on && KeyOf(code).Enter?
    ensures var t := IsrStep(s, code);
      && t.buffer == s.buffer && t.index == s.index && t.shift == s.shift && t.caps == s.caps && !t.on
      && (if s.cursor < 1920 then t.cells == s.cells && t.cursor == 80 * (s.cursor / 80 + 1)
          else t.cells == Scrolled(s.cells) && t.cursor == 1920)
  {
    hide KeyOf, Scrolled, EraseStep, TypeStep;
  }

  // Backspace blanks the cell it goes to: the one before the cursor, unless that shows a backspace character;
  // at the start of a row the one behind the last character of the row above, or its last cell.
  lemma BackspaceEffect(s: Console, code: Byte)
    requires ConsoleOk(s) && s.on && KeyOf(code).Backspace?
    ensures var t := IsrStep(s, code);
      && t.cursor < 2000 && t.cells == s.cells[t.cursor := 0x0F00]
      && t.buffer == s.buffer && t.index == (if s.index > 0 then s.index - 1 else 0)
      && t.shift == s.shift && t.caps == s.caps && t.on
    ensures var p := IsrStep(s, code).cursor;
      if s.cursor % 80 != 0 then p == if s.cells[s.cursor - 1] % 0x100 == 8 then s.cursor else s.cursor - 1
      else if s.cursor == 0 then p == 0
      else && s.cursor - 80 <= p < s.cursor
           && (p > s.cursor - 80 ==> s.cells[p - 1] % 0x100 != 0)
           && forall q :: p <= q < s.cursor - 1 ==> s.cells[q] % 0x100 == 0
  {
    hide KeyOf, EnterStep, TypeStep;
    if s.cursor % 80 == 0 && s.cursor > 0 {
      assert s.cursor >= 80;
      LastUsedIs(s.cells, s.cursor - 80, 79);
    }
  }

  lemma {:induction false} LastUsedIs(cells: Cells, base: nat, col: nat)
    requires base + col < 2000
    ensures var p := LastUsed(cells, base, col);
      && (p > base ==> cells[p - 1] % 0x100 != 0) && forall q :: p <= q < base + col ==> cells[q] % 0x100 == 0
    decreases col
  {
    if col > 0 && CharOf(cells[base + col - 1]) == 0 {
      LastUsedIs(cells, base, col - 1);
    }
  }

  // The other keys change at most the two modes; a code that comes in when input is off clears the line.
  lemma ModeEffect(s: Console, code: Byte)
    requires ConsoleOk(s)
    ensures s.on && !KeyOf(code).Char? && !KeyOf(code).Enter? && !KeyOf(code).Backspace? ==>
      IsrStep(s, code) == s.(
        shift := if KeyOf(code).ShiftDown? then true else if KeyOf(code).ShiftUp? then false else s.shift,
        caps := if KeyOf(code).CapsLock? then !s.caps else s.caps)
    ensures !s.on ==> var t := IsrStep(s, code);
      t == s.(buffer := t.buffer, index := 0) && forall k :: 0 <= k < 256 ==> t.buffer[k] == 0
  {
    hide KeyOf, EraseStep, EnterStep, TypeStep;
  }

  /* Runs */

  lemma {:induction false} LineNext(l: Line, code: Byte, rest: seq<Byte>)
    ensures LineRun(l, [code] + rest) == LineRun(LineStep(l, KeyOf(code)), rest)
    ensures LineRun(l, [code]) == LineStep(l, KeyOf(code))
  {
    assert ([code] + rest)[1..] == rest && [code][1..] == [];
  }

  // A letter key after caps lock gives the capital, after caps lock and shift the small letter, and after shift
  // the capital until shift is released.
  lemma {:induction false} ModesRun(l: Line, code: Byte, k: nat)
    requires l.text == [] && !l.shift && !l.caps && k < 26
    requires KeyOf(code) == Char("abcdefghijklmnopqrstuvwxyz"[k] as int)
    ensures var small, capital := "abcdefghijklmnopqrstuvwxyz"[k] as int, "ABCDEFGHIJKLMNOPQRSTUVWXYZ"[k] as int;
      && LineRun(l, [0x3A] + [code]).text == [capital]
      && LineRun(l, [0x3A] + ([0x2A] + [code])).text == [small]
      && LineRun(l, [0x2A] + ([code] + ([0xAA] + [code]))).text == [capital] + [small]
  {
    hide KeyOf, LineStep, LineRun;
    ModeKeys();
    var c: Byte := "abcdefghijklmnopqrstuvwxyz"[k] as int;
    var caps, shift := l.(caps := true), l.(shift := true);
    StepModes(l);
    StepModes(caps);
    LineNext(l, 0x3A, [code]);
    LineNext(caps, code, []);
    LineTyped(caps, c);
    LineNext(l, 0x3A, [0x2A] + [code]);
    LineNext(caps, 0x2A, [code]);
    var both := caps.(shift := true);
    LineNext(both, code, []);
    LineTyped(both, c);
    LineNext(l, 0x2A, [code] + ([0xAA] + [code]));
    LineNext(shift, code, [0xAA] + [code]);
    LineTyped(shift, c);
    var first := LineStep(shift, Char(c));
    StepModes(first);
    LineNext(first, 0xAA, [code]);
    var released := first.(shift := false);
    LineNext(released, code, []);
    LineTyped(released, c);
  }

  lemma ModeKeys()
    ensures KeyOf(0x3A) == CapsLock && KeyOf(0x2A) == ShiftDown && KeyOf(0xAA) == ShiftUp
  {
  }

  lemma StepModes(l: Line)
    ensures LineStep(l, CapsLock) == l.(caps := !l.caps)
    ensures LineStep(l, ShiftDown) == l.(shift := true) && LineStep(l, ShiftUp) == l.(shift := false)
  {
  }

  // The same on the buffer of the interrupt.
  lemma {:induction false} InterruptModes(s: Console, code: Byte, k: nat)
    requires ConsoleOk(s) && s.on && !s.shift && !s.caps && k < 26
    requires KeyOf(code) == Char("abcdefghijklmnopqrstuvwxyz"[k] as int)
    ensures IsrRun(s, [0x3A] + [code]).buffer[s.index] == "ABCDEFGHIJKLMNOPQRSTUVWXYZ"[k] as int
    ensures IsrRun(s, [0x3A] + ([0x2A] + [code])).buffer[s.index] == "abcdefghijklmnopqrstuvwxyz"[k] as int
    ensures IsrRun(s, [0x2A] + [code]).buffer[s.index] == "ABCDEFGHIJKLMNOPQRSTUVWXYZ"[k] as int
  {
    hide KeyOf, IsrStep, IsrRun;
    ModeKeys();
    var caps, shift := s.(caps := true), s.(shift := true);
    var both := caps.(shift := true);
    ModeEffect(s, 0x3A);
    ModeEffect(s, 0x2A);
    ModeEffect(caps, 0x2A);
    IsrNext(s, 0x3A, [code]);
    IsrNext(s, 0x3A, [0x2A] + [code]);
    IsrNext(caps, 0x2A, [code]);
    IsrNext(s, 0x2A, [code]);
    IsrNext(caps, code, []);
    IsrNext(both, code, []);
    IsrNext(shift, code, []);
    LetterPut(caps, code, k);
    LetterPut(both, code, k);
    LetterPut(shift, code, k);
  }

  lemma LetterPut(s: Console, code: Byte, k: nat)
    requires ConsoleOk(s) && s.on && k < 26
    requires KeyOf(code) == Char("abcdefghijklmnopqrstuvwxyz"[k] as int)
    ensures IsrStep(s, code).buffer[s.index] ==
      if s.shift == s.caps then "abcdefghijklmnopqrstuvwxyz"[k] as int else "ABCDEFGHIJKLMNOPQRSTUVWXYZ"[k] as int
  {
    hide KeyOf, Scrolled, EraseStep, EnterStep;
    CharEffect(s, code);
  }

  lemma {:induction false} IsrNext(s: Console, code: Byte, rest: seq<Byte>)
    requires ConsoleOk(s)
    ensures IsrRun(s, [code] + rest) == IsrRun(IsrStep(s, code), rest)
    ensures IsrRun(s, [code]) == IsrStep(s, code)
  {
    hide IsrStep;
    assert ([code] + rest)[1..] == rest && [code][1..] == [];
  }
}

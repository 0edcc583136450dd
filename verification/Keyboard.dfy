// The line editor behind the keyboard interrupt: what is typed goes to a buffer and to the screen, and
// the two keep agreeing.
module Keyboard {
  import opened Layout
  import opened Framebuffer

  const BUFFER_SIZE := 256
  const BACKSPACE: Byte := 8
  const NEWLINE: Byte := 10

  // The characters of 16 scan codes from 16 * `row` on; from row 5 on there are none.
  function KeyRow(row: nat): (m: seq<Byte>)
    ensures |m| == 16 && forall k :: 0 <= k < 16 ==> m[k] < 128
  {
    match row
    case 0 => [0, 27, 49, 50, 51, 52, 53, 54, 55, 56, 57, 48, 45, 61, 8, 9]
    case 1 => [113, 119, 101, 114, 116, 121, 117, 105, 111, 112, 91, 93, 10, 0, 97, 115]
    case 2 => [100, 102, 103, 104, 106, 107, 108, 59, 39, 96, 0, 92, 122, 120, 99, 118]
    case 3 => [98, 110, 109, 44, 46, 47, 0, 42, 0, 32, 0, 0, 0, 0, 0, 0]
    case 4 => [0, 0, 0, 0, 0, 0, 0, 0, 0, 0, 45, 0, 0, 0, 43, 0]
    case _ => seq(16, _ => 0)
  }

  function Ascii(scancode: Byte): (c: Byte)
    ensures c < 128
  {
    KeyRow(scancode / 16)[scancode % 16]
  }

  datatype Key = ShiftDown | ShiftUp | CapsLock | Other | Backspace | Enter | Char(c: Byte)

  function KeyOf(scancode: Byte): (k: Key)
    ensures k.Char? ==> 0 < k.c < 128 && k.c != BACKSPACE && k.c != NEWLINE
  {
    if scancode == 0x2A || scancode == 0x36 then ShiftDown
    else if scancode == 0xAA || scancode == 0xB6 then ShiftUp
    else if scancode == 0x3A then CapsLock
    else
      var c := Ascii(scancode);
      if c == 0 then Other
      else if c == BACKSPACE then Backspace
      else if c == NEWLINE then Enter
      else Char(c)
  }

  // The character that is typed: a letter is a capital when exactly one of shift and caps lock is on.
  function Typed(c: Byte, shift: bool, caps: bool): (t: Byte)
    requires c < 128
    ensures t < 128 && (t == 0 || t == BACKSPACE ==> c == t)
  {
    if 97 <= c <= 122 && shift != caps then c - 32 else c
  }

  /* The line a user has in mind */

  datatype Line = Line(text: seq<Byte>, shift: bool, caps: bool)

  function LineStep(l: Line, key: Key): Line
    requires key.Char? ==> key.c < 128
  {
    match key
    case ShiftDown => l.(shift := true)
    case ShiftUp => l.(shift := false)
    case CapsLock => l.(caps := !l.caps)
    case Other => l
    case Backspace => if |l.text| > 0 then l.(text := l.text[..|l.text| - 1]) else l
    case Enter => l
    case Char(c) => l.(text := l.text + [Typed(c, l.shift, l.caps)])
  }

  /* What the interrupt does */

  datatype Console = Console(cells: Cells, cursor: nat, buffer: seq<Byte>, index: Byte,
                             shift: bool, caps: bool, on: bool)

  ghost predicate ConsoleOk(s: Console) {
    s.cursor < SCREEN && |s.buffer| == BUFFER_SIZE
  }

  // The last column of a row that has something before it.
  function LastUsed(cells: Cells, base: nat, col: nat): (p: nat)
    requires base + col < SCREEN
    ensures base <= p <= base + col
    decreases col
  {
    if col > 0 && CharOf(cells[base + col - 1]) == 0 then LastUsed(cells, base, col - 1) else base + col
  }

  // Where backspace puts the cursor.
  function Back(cells: Cells, cursor: nat): (p: nat)
    requires cursor < SCREEN
    ensures p <= cursor
  {
    if cursor % VGA_WIDTH == 0 then
      if cursor == 0 then 0 else LastUsed(cells, cursor - VGA_WIDTH, VGA_WIDTH - 1)
    else if CharOf(cells[cursor - 1]) == BACKSPACE then cursor
    else cursor - 1
  }

  function Painted(cells: Cells, p: nat, c: Byte): Cells
    requires p < SCREEN
  {
    cells[p := SetEntry(c, DEFAULT_FG, DEFAULT_BG)]
  }

  function EraseStep(s: Console): (t: Console)
    requires ConsoleOk(s)
    ensures ConsoleOk(t)
  {
    var p := Back(s.cells, s.cursor);
    s.(cells := Painted(s.cells, p, 0), cursor := p, index := if s.index > 0 then s.index - 1 else 0)
  }

  function EnterStep(s: Console): (t: Console)
    requires ConsoleOk(s)
    ensures ConsoleOk(t)
  {
    if s.cursor >= SCREEN - VGA_WIDTH then s.(cells := Scrolled(s.cells), cursor := SCREEN - VGA_WIDTH, on := false)
    else s.(cursor := s.cursor - s.cursor % VGA_WIDTH + VGA_WIDTH, on := false)
  }

  function TypeStep(s: Console, c: Byte): (t: Console)
    requires ConsoleOk(s)
    ensures ConsoleOk(t)
  {
    var cells := Painted(s.cells, s.cursor, c);
    var u := s.(buffer := s.buffer[s.index := c], index := (s.index + 1) % BUFFER_SIZE);
    if s.cursor == SCREEN - 1 then u.(cells := Scrolled(cells), cursor := SCREEN - VGA_WIDTH)
    else u.(cells := cells, cursor := s.cursor + 1)
  }

  function IsrStep(s: Console, scancode: Byte): (t: Console)
    requires ConsoleOk(s)
    ensures ConsoleOk(t)
  {
    if !s.on then s.(buffer := seq(BUFFER_SIZE, _ => 0), index := 0)
    else
      match KeyOf(scancode)
      case ShiftDown => s.(shift := true)
      case ShiftUp => s.(shift := false)
      case CapsLock => s.(caps := !s.caps)
      case Other => s
      case Backspace => EraseStep(s)
      case Enter => EnterStep(s)
      case Char(c) => TypeStep(s, Typed(c, s.shift, s.caps))
  }

  class KeyboardDriver {
    const screen: Screen
    const buffer: array<Byte>
    var inputOn: bool
    var bufferIndex: Byte
    var shiftPressed: bool
    var capslockActivated: bool

    ghost predicate Valid()
      reads screen
    {
      && screen.Valid() && buffer.Length == BUFFER_SIZE
      && buffer as object != screen.cells as object && screen.Cursor() < SCREEN
    }

    ghost function State(): (s: Console)
      requires Valid()
      reads this, screen, screen.cells, buffer
      ensures ConsoleOk(s)
    {
      Console(screen.cells[..], screen.Cursor(), buffer[..], bufferIndex, shiftPressed, capslockActivated, inputOn)
    }

    constructor (s: Screen)
      requires s.Valid() && s.Cursor() < SCREEN
      ensures Valid() && screen == s && fresh(buffer)
      ensures inputOn && bufferIndex == 0 && !shiftPressed && !capslockActivated
    {
      screen := s;
      buffer := new Byte[BUFFER_SIZE](_ => 0);
      inputOn := true;
      bufferIndex := 0;
      shiftPressed, capslockActivated := false, false;
    }

    method Activate()
      modifies this`inputOn
      ensures inputOn
    {
      inputOn := true;
    }

    method ResetBuffer()
      requires Valid()
      modifies this`bufferIndex, buffer
      ensures Valid() && State() == old(State()).(buffer := seq(BUFFER_SIZE, _ => 0), index := 0)
    {
      for i := 0 to BUFFER_SIZE
        invariant forall k :: 0 <= k < i ==> buffer[k] == 0
      {
        buffer[i] := 0;
      }
      bufferIndex := 0;
      assert buffer[..] == seq(BUFFER_SIZE, _ => 0);
    }

    // Copy what has been typed to the front of the caller's buffer.
    method GetBuffer(buf: array<Byte>)
      requires Valid() && buf != buffer && bufferIndex <= buf.Length
      modifies buf
      ensures buf[..] == State().buffer[..bufferIndex] + old(buf[bufferIndex..])
    {
      forall k | 0 <= k < bufferIndex {
        buf[k] := buffer[k];
      }
    }

    // Where backspace puts the cursor: at the start of a row, behind the last character of the row above.
    method BackPosition(row: Byte, col: Byte) returns (newRow: Byte, newCol: Byte)
      requires Valid() && row < VGA_HEIGHT && col < VGA_WIDTH
      ensures newRow <= row && newCol < VGA_WIDTH
      ensures VGA_WIDTH * newRow + newCol == Back(screen.cells[..], VGA_WIDTH * row + col)
    {
      if col == 0 {
        if row == 0 {
          return 0, 0;
        }
        newRow, newCol := row - 1, VGA_WIDTH - 1;
        while newCol > 0 && CharOf(screen.cells[VGA_WIDTH * newRow + newCol - 1]) == 0
          invariant newCol < VGA_WIDTH
          invariant LastUsed(screen.cells[..], VGA_WIDTH * newRow, newCol) ==
                    LastUsed(screen.cells[..], VGA_WIDTH * newRow, VGA_WIDTH - 1)
        {
          newCol := newCol - 1;
        }
      } else if CharOf(screen.cells[VGA_WIDTH * row + col - 1]) == BACKSPACE {
        return row, col;
      } else {
        return row, col - 1;
      }
    }

    // Take back one character.
    method Erase(row: Byte, col: Byte)
      requires Valid() && row < VGA_HEIGHT && col < VGA_WIDTH && screen.Cursor() == VGA_WIDTH * row + col
      modifies this`bufferIndex, screen, screen.cells
      ensures Valid() && State() == EraseStep(old(State()))
    {
      hide Back, SetEntry, Scrolled;
      var newRow, newCol := BackPosition(row, col);
      screen.SetCursor(newRow, newCol);
      screen.Write(newRow, newCol, 0, DEFAULT_FG, DEFAULT_BG);
      if bufferIndex > 0 {
        bufferIndex := bufferIndex - 1;
      }
    }

    // End the line.
    method NextRow(row: Byte, col: Byte)
      requires Valid() && row < VGA_HEIGHT && col < VGA_WIDTH && screen.Cursor() == VGA_WIDTH * row + col
      modifies this`inputOn, screen, screen.cells
      ensures Valid() && State() == EnterStep(old(State()))
    {
      hide SetEntry, Scrolled;
      if row == VGA_HEIGHT - 1 {
        screen.ScrollDown();
        screen.SetCursor(row, 0);
      } else {
        screen.SetCursor(row + 1, 0);
      }
      inputOn := false;
    }

    // Show a character and remember it.
    method Type(row: Byte, col: Byte, c: Byte)
      requires Valid() && row < VGA_HEIGHT && col < VGA_WIDTH && screen.Cursor() == VGA_WIDTH * row + col
      modifies this`bufferIndex, buffer, screen, screen.cells
      ensures Valid() && State() == TypeStep(old(State()), c)
    {
      hide SetEntry, Scrolled;
      screen.Write(row, col, c, DEFAULT_FG, DEFAULT_BG);
      buffer[bufferIndex] := c;
      bufferIndex := (bufferIndex + 1) % BUFFER_SIZE;
      if row == VGA_HEIGHT - 1 && col == VGA_WIDTH - 1 {
        screen.ScrollDown();
        screen.SetCursor(row, 0);
      } else {
        screen.SetCursor(row, col + 1);
      }
    }

    // The interrupt: one scan code has arrived.
    method Isr(scancode: Byte)
      requires Valid()
      modifies this, screen, screen.cells, buffer
      ensures Valid() && State() == IsrStep(old(State()), scancode)
    {
      hide Ascii, EraseStep, EnterStep, TypeStep;
      if !inputOn {
        ResetBuffer();
        return;
      }
      var mappedChar := Ascii(scancode);
      var currentPos := screen.Cursor();
      var row: Byte, col: Byte := currentPos / VGA_WIDTH, currentPos % VGA_WIDTH;
      if scancode == 0x2A || scancode == 0x36 {
        shiftPressed := true;
      } else if scancode == 0xAA || scancode == 0xB6 {
        shiftPressed := false;
      } else if scancode == 0x3A {
        capslockActivated := !capslockActivated;
      } else if mappedChar == 0 {
      } else if mappedChar == BACKSPACE {
        Erase(row, col);
      } else if mappedChar == NEWLINE {
        NextRow(row, col);
      } else {
        if 97 <= mappedChar <= 122 && shiftPressed != capslockActivated {
          mappedChar := mappedChar - 32;
        }
        Type(row, col, mappedChar);
      }
    }
  }
}

// The screen echoes the line: at every key the cells behind the prompt spell what has been typed.
module Echo {
  import opened Layout
  import opened Framebuffer
  import opened Keyboard

  // The cells before `prompt` end in a backspace character, which is not at the end of a row; behind
  // it stands the line, and the cursor behind that.
  ghost predicate Echoes(s: Console, prompt: nat, l: Line) {
    && ConsoleOk(s) && s.on && s.shift == l.shift && s.caps == l.caps
    && prompt % VGA_WIDTH != 0 && prompt + |l.text| < SCREEN && CharOf(s.cells[prompt - 1]) == BACKSPACE
    && s.cursor == prompt + |l.text| && s.index == |l.text|
    && s.buffer[..s.index] == l.text
    && Spells(s.cells, prompt, l.text)
  }

  // The line stands on the screen from `at` on.
  ghost predicate Spells(cells: Cells, at: nat, text: seq<Byte>) {
    && at + |text| <= SCREEN
    && forall i :: 0 <= i < |text| ==> CharOf(cells[at + i]) == text[i] && text[i] != 0 && text[i] != BACKSPACE
  }

  // The prompt moves up a row when the line scrolls.
  function PromptStep(s: Console, prompt: nat, key: Key): nat {
    if key.Char? && s.cursor == SCREEN - 1 && prompt >= VGA_WIDTH then prompt - VGA_WIDTH else prompt
  }

  // The prompt itself, as far as it is still on the screen, is what it was.
  ghost predicate PromptKept(s: Console, prompt: nat, t: Console, after: nat) {
    && after <= prompt <= SCREEN
    && forall p :: 0 <= p < after ==> CharOf(t.cells[p]) == CharOf(s.cells[p + prompt - after])
  }

  // Backspace takes back the last character of the line, across rows, and nothing of the prompt.
  lemma BackTakesLast(s: Console, prompt: nat, l: Line)
    requires Echoes(s, prompt, l)
    ensures Back(s.cells, s.cursor) == if |l.text| > 0 then s.cursor - 1 else s.cursor
  {
    if |l.text| > 0 {
      assert CharOf(s.cells[prompt + (|l.text| - 1)]) == l.text[|l.text| - 1];
      if |l.text| > 1 {
        assert CharOf(s.cells[prompt + (|l.text| - 2)]) == l.text[|l.text| - 2];
      }
    }
  }

  // A character that has been shown is there, and the other cells are as they were.
  lemma ShownChar(cells: Cells, at: nat, c: Byte)
    requires at < SCREEN
    ensures CharOf(Painted(cells, at, c)[at]) == c
    ensures forall p :: 0 <= p < SCREEN && p != at ==> Painted(cells, at, c)[p] == cells[p]
  {
    hide CharOf, SetEntry;
    CellRoundTrip(c, DEFAULT_FG, DEFAULT_BG);
  }

  lemma ScrolledChars(cells: Cells)
    ensures forall p :: 0 <= p < SCREEN - VGA_WIDTH ==> CharOf(Scrolled(cells)[p]) == CharOf(cells[p + VGA_WIDTH])
  {
    hide CharOf, SetEntry, Scrolled;
  }

  lemma SpellsOneMore(cells: Cells, at: nat, text: seq<Byte>, c: Byte)
    requires Spells(cells, at, text) && at + |text| < SCREEN && c != 0 && c != BACKSPACE
    ensures Spells(Painted(cells, at + |text|, c), at, text + [c])
  {
    hide CharOf, Painted;
    ShownChar(cells, at + |text|, c);
  }

  lemma SpellsOneLess(cells: Cells, at: nat, text: seq<Byte>)
    requires Spells(cells, at, text) && |text| > 0
    ensures Spells(Painted(cells, at + |text| - 1, 0), at, text[..|text| - 1])
  {
    hide CharOf, Painted;
    ShownChar(cells, at + |text| - 1, 0);
  }

  lemma EchoBackspace(s: Console, prompt: nat, l: Line, scancode: Byte)
    requires Echoes(s, prompt, l) && KeyOf(scancode).Backspace?
    ensures Echoes(IsrStep(s, scancode), prompt, LineStep(l, Backspace))
    ensures PromptKept(s, prompt, IsrStep(s, scancode), prompt)
  {
    hide KeyOf, Back, CharOf, Painted, Spells, EnterStep, TypeStep;
    BackTakesLast(s, prompt, l);
    ShownChar(s.cells, Back(s.cells, s.cursor), 0);
    if |l.text| > 0 {
      SpellsOneLess(s.cells, prompt, l.text);
      assert s.buffer[..s.index - 1] == l.text[..|l.text| - 1];
    } else {
      assert Spells(IsrStep(s, scancode).cells, prompt, []) by {
        SpellsNothing(IsrStep(s, scancode).cells, prompt);
      }
    }
  }

  lemma SpellsNothing(cells: Cells, at: nat)
    requires at < SCREEN
    ensures Spells(cells, at, [])
  {
  }

  lemma SpellsScrolled(cells: Cells, at: nat, text: seq<Byte>)
    requires Spells(cells, at, text) && at >= VGA_WIDTH
    ensures Spells(Scrolled(cells), at - VGA_WIDTH, text)
  {
    hide CharOf, Scrolled;
    ScrolledChars(cells);
    forall i | 0 <= i < |text|
      ensures CharOf(Scrolled(cells)[at - VGA_WIDTH + i]) == text[i]
    {
      assert CharOf(cells[at + i]) == text[i];
    }
  }

  lemma EchoChar(s: Console, prompt: nat, l: Line, scancode: Byte)
    requires Echoes(s, prompt, l) && KeyOf(scancode).Char? && |l.text| < BUFFER_SIZE - 1
    ensures var after := PromptStep(s, prompt, KeyOf(scancode));
      && Echoes(IsrStep(s, scancode), after, LineStep(l, KeyOf(scancode)))
      && PromptKept(s, prompt, IsrStep(s, scancode), after)
  {
    hide KeyOf, CharOf, Painted, Spells, Scrolled, Typed, EraseStep, EnterStep;
    var c := Typed(KeyOf(scancode).c, s.shift, s.caps);
    var cells := Painted(s.cells, s.cursor, c);
    ShownChar(s.cells, s.cursor, c);
    SpellsOneMore(s.cells, prompt, l.text, c);
    assert s.buffer[s.index := c][..s.index + 1] == l.text + [c];
    if s.cursor == SCREEN - 1 {
      ScrolledChars(cells);
      SpellsScrolled(cells, prompt, l.text + [c]);
    }
  }

  // One key: the screen goes on echoing the line, and the prompt is not touched.
  lemma EchoStep(s: Console, prompt: nat, l: Line, scancode: Byte)
    requires Echoes(s, prompt, l) && !KeyOf(scancode).Enter?
    requires |LineStep(l, KeyOf(scancode)).text| < BUFFER_SIZE
    ensures var after := PromptStep(s, prompt, KeyOf(scancode));
      && Echoes(IsrStep(s, scancode), after, LineStep(l, KeyOf(scancode)))
      && PromptKept(s, prompt, IsrStep(s, scancode), after)
  {
    hide KeyOf, CharOf, Painted, Spells, Scrolled, Back, EraseStep, EnterStep, TypeStep;
    match KeyOf(scancode)
    case Char(_) => EchoChar(s, prompt, l, scancode);
    case Backspace => EchoBackspace(s, prompt, l, scancode);
    case _ =>
  }

  /* Whole runs */

  function IsrRun(s: Console, codes: seq<Byte>): (t: Console)
    requires ConsoleOk(s)
    ensures ConsoleOk(t)
    decreases |codes|
  {
    if codes == [] then s else IsrRun(IsrStep(s, codes[0]), codes[1..])
  }

  function LineRun(l: Line, codes: seq<Byte>): Line
    decreases |codes|
  {
    if codes == [] then l else LineRun(LineStep(l, KeyOf(codes[0])), codes[1..])
  }

  // No enter yet, and the line never outgrows the buffer.
  predicate LineFits(l: Line, codes: seq<Byte>)
    decreases |codes|
  {
    codes == [] ||
    (!KeyOf(codes[0]).Enter? && |LineStep(l, KeyOf(codes[0])).text| < BUFFER_SIZE &&
      LineFits(LineStep(l, KeyOf(codes[0])), codes[1..]))
  }

  function PromptRun(s: Console, prompt: nat, codes: seq<Byte>): nat
    requires ConsoleOk(s)
    decreases |codes|
  {
    if codes == [] then prompt
    else PromptRun(IsrStep(s, codes[0]), PromptStep(s, prompt, KeyOf(codes[0])), codes[1..])
  }

  lemma KeptTwice(s: Console, prompt: nat, t: Console, middle: nat, u: Console, after: nat)
    requires PromptKept(s, prompt, t, middle) && PromptKept(t, middle, u, after)
    ensures PromptKept(s, prompt, u, after)
  {
    hide CharOf;
    forall p | 0 <= p < after
      ensures CharOf(u.cells[p]) == CharOf(s.cells[p + prompt - after])
    {
      assert CharOf(t.cells[p + middle - after]) == CharOf(s.cells[p + middle - after + prompt - middle]);
    }
  }

  lemma KeptOnce(s: Console, prompt: nat, l: Line)
    requires Echoes(s, prompt, l)
    ensures ConsoleOk(s) && PromptKept(s, prompt, s, prompt)
  {
  }

  // Whatever is typed, screen, buffer and line agree.
  lemma {:induction false} EchoRun(s: Console, prompt: nat, l: Line, codes: seq<Byte>)
    requires Echoes(s, prompt, l) && LineFits(l, codes)
    ensures var after := PromptRun(s, prompt, codes);
      && Echoes(IsrRun(s, codes), after, LineRun(l, codes))
      && PromptKept(s, prompt, IsrRun(s, codes), after)
    decreases |codes|
  {
    hide KeyOf, IsrStep, LineStep, Echoes, PromptStep, CharOf;
    KeptOnce(s, prompt, l);
    if codes != [] {
      var t, after := IsrStep(s, codes[0]), PromptStep(s, prompt, KeyOf(codes[0]));
      EchoStep(s, prompt, l, codes[0]);
      EchoRun(t, after, LineStep(l, KeyOf(codes[0])), codes[1..]);
      KeptTwice(s, prompt, t, after, IsrRun(s, codes), PromptRun(s, prompt, codes));
    }
  }

  // Enter hands over the line: input goes off, and the buffer holds exactly what was typed.
  lemma {:induction false} LineDelivered(s: Console, prompt: nat, l: Line, codes: seq<Byte>, last: Byte)
    requires Echoes(s, prompt, l) && LineFits(l, codes) && KeyOf(last).Enter?
    ensures var t := IsrStep(IsrRun(s, codes), last);
      && !t.on && t.cursor % VGA_WIDTH == 0
      && t.buffer[..t.index] == LineRun(l, codes).text
  {
    hide KeyOf, IsrStep, Echoes, PromptKept;
    KeptOnce(s, prompt, l);
    EchoRun(s, prompt, l, codes);
    EnterDelivers(IsrRun(s, codes), PromptRun(s, prompt, codes), LineRun(l, codes), last);
  }

  lemma EnterDelivers(s: Console, prompt: nat, l: Line, last: Byte)
    requires Echoes(s, prompt, l) && KeyOf(last).Enter?
    ensures ConsoleOk(s)
    ensures var t := IsrStep(s, last);
      !t.on && t.cursor % VGA_WIDTH == 0 && t.buffer[..t.index] == l.text
  {
    hide KeyOf, CharOf, Scrolled, Spells, EraseStep, TypeStep;
    RowStart(s.cursor);
  }

  lemma RowStart(p: nat)
    ensures (p - p % VGA_WIDTH + VGA_WIDTH) % VGA_WIDTH == 0 && (SCREEN - VGA_WIDTH) % VGA_WIDTH == 0
  {
  }

  // A key that comes in when input is off clears the buffer: a line that has not been fetched is lost.
  lemma {:induction false} LateKeyLosesLine(s: Console, late: seq<Byte>)
    requires ConsoleOk(s) && !s.on
    ensures var t := IsrRun(s, late);
      !t.on && t.buffer[..t.index] == if late == [] then s.buffer[..s.index] else []
    decreases |late|
  {
    hide KeyOf;
    if late != [] {
      LateKeyLosesLine(IsrStep(s, late[0]), late[1..]);
    }
  }

  // Interrupts arrive one after the other.
  method Feed(k: KeyboardDriver, codes: seq<Byte>)
    requires k.Valid()
    modifies k, k.screen, k.screen.cells, k.buffer
    ensures k.Valid() && k.State() == IsrRun(old(k.State()), codes)
  {
    hide IsrStep;
    ghost var s := k.State();
    for i := 0 to |codes|
      invariant k.Valid() && IsrRun(k.State(), codes[i..]) == IsrRun(s, codes)
    {
      assert codes[i..][1..] == codes[i + 1..];
      k.Isr(codes[i]);
    }
  }

  // The cursor stands behind a prompt that the editor can protect.
  ghost predicate Prompted(s: Console) {
    ConsoleOk(s) && s.cursor % VGA_WIDTH != 0 && CharOf(s.cells[s.cursor - 1]) == BACKSPACE
  }

  // Read a line: the keys of the line, enter, and the keys that still come in before the line is copied.
  // The caller gets exactly the edited line if there are none of these, and nothing otherwise.
  method ReadLine(k: KeyboardDriver, codes: seq<Byte>, enter: Byte, late: seq<Byte>, buf: array<Byte>)
    requires k.Valid() && Prompted(k.State()) && KeyOf(enter).Enter?
    requires LineFits(Line([], k.shiftPressed, k.capslockActivated), codes)
    requires buf.Length == BUFFER_SIZE && buf != k.buffer && buf as object != k.screen.cells as object
    modifies k, k.screen, k.screen.cells, k.buffer, buf
    ensures k.Valid() && !k.inputOn
    ensures var line := if late == [] then LineRun(Line([], old(k.shiftPressed), old(k.capslockActivated)), codes).text
      else [];
      && |line| < BUFFER_SIZE && buf[..|line|] == line
      && forall i :: |line| <= i < BUFFER_SIZE ==> buf[i] == 0
  {
    hide IsrStep, KeyOf, CharOf;
    ghost var l := Line([], k.shiftPressed, k.capslockActivated);
    k.ResetBuffer();
    k.Activate();
    ghost var s := k.State();
    EmptyEchoes(s);
    LineDelivered(s, s.cursor, l, codes, enter);
    Feed(k, codes);
    k.Isr(enter);
    ghost var t := k.State();
    Feed(k, late);
    LateKeyLosesLine(t, late);
    forall i | 0 <= i < BUFFER_SIZE {
      buf[i] := 0;
    }
    k.GetBuffer(buf);
  }

  lemma EmptyEchoes(s: Console)
    requires Prompted(s) && s.on && s.index == 0
    ensures Echoes(s, s.cursor, Line([], s.shift, s.caps))
  {
    hide CharOf;
  }

  // The agreement ends exactly with the 256th character: the index wraps, and the line is lost.
  lemma WrapLosesLine(s: Console, prompt: nat, l: Line, scancode: Byte)
    requires Echoes(s, prompt, l) && !KeyOf(scancode).Enter?
    ensures var t, after := IsrStep(s, scancode), LineStep(l, KeyOf(scancode));
      && (t.buffer[..t.index] == after.text <==> |after.text| < BUFFER_SIZE)
      && (|after.text| == BUFFER_SIZE ==> t.index == 0)
  {
    hide KeyOf, CharOf, Scrolled, Spells, Painted, Back, EraseStep, EnterStep;
    if |LineStep(l, KeyOf(scancode)).text| < BUFFER_SIZE {
      EchoStep(s, prompt, l, scancode);
    }
  }

  // With nothing typed, backspace leaves the cursor alone exactly behind a backspace character that is
  // not at the end of a row, or at the top left corner.
  lemma EmptyBackspace(s: Console)
    requires ConsoleOk(s)
    ensures Back(s.cells, s.cursor) == s.cursor <==>
      s.cursor == 0 || (s.cursor % VGA_WIDTH != 0 && CharOf(s.cells[s.cursor - 1]) == BACKSPACE)
  {
    hide CharOf;
  }
}

/** Terminal colouring of cc_launcher/utils/colors.py: the ANSI SGR codes, and what
    ColorPrinter writes for each kind of message. Writing to standard output is modelled
    by returning the exact text that would be written. */
module Colors {
  import opened Wrappers
  import opened Text

  const Esc: char := '\U{1B}'

  /** The SGR escape sequence `ESC [ code m`. */
  function Sgr(code: string): string {
    [Esc] + "[" + code + "m"
  }

  const Black := Sgr("30")
  const Red := Sgr("31")
  const Green := Sgr("32")
  const Yellow := Sgr("33")
  const Blue := Sgr("34")
  const Magenta := Sgr("35")
  const Cyan := Sgr("36")
  const White := Sgr("37")
  const Gray := Sgr("90")

  const BrightBlack := Sgr("90")
  const BrightRed := Sgr("91")
  const BrightGreen := Sgr("92")
  const BrightYellow := Sgr("93")
  const BrightBlue := Sgr("94")
  const BrightMagenta := Sgr("95")
  const BrightCyan := Sgr("96")
  const BrightWhite := Sgr("97")

  const Bold := Sgr("1")
  const Dim := Sgr("2")
  const Underline := Sgr("4")
  const Reset := Sgr("0")

  /** A single escape sequence: ESC, then characters other than `m`, then `m`. */
  predicate IsSgr(code: string) {
    |code| >= 2 && code[0] == Esc && code[|code| - 1] == 'm'
    && forall i :: 0 <= i < |code| - 1 ==> code[i] != 'm'
  }

  lemma {:induction false} SgrIsEscapeSequence(code: string)
    requires 'm' !in code
    ensures IsSgr(Sgr(code))
  {
    var s := Sgr(code);
    assert forall i :: 2 <= i < |s| - 1 ==> s[i] == code[i - 2];
  }

  /** What a terminal displays of `s`: every sequence from ESC up to and including the
      next `m` is consumed; an ESC with no later `m` consumes the rest. */
  function StripSgr(s: string): (r: string)
    ensures |r| <= |s|
    decreases |s|
  {
    if s == [] then []
    else if s[0] == Esc then
      var k := IndexOf(s, 'm');
      if k < |s| then StripSgr(s[k + 1..]) else []
    else [s[0]] + StripSgr(s[1..])
  }

  lemma {:induction false} StripSgrAfterEscape(x: string, rest: string)
    requires IsSgr(x)
    ensures StripSgr(x + rest) == StripSgr(rest)
  {
    var s := x + rest;
    var k := IndexOf(s, 'm');
    assert s[|x| - 1] == 'm';
    assert forall i :: 0 <= i < |x| - 1 ==> s[i] != 'm' by {
      forall i | 0 <= i < |x| - 1 ensures s[i] != 'm' { assert s[i] == x[i]; }
    }
    assert k == |x| - 1;
    assert s[k + 1..] == rest;
  }

  lemma {:induction false} StripSgrPlainText(t: string, rest: string)
    requires Esc !in t
    ensures StripSgr(t + rest) == t + StripSgr(rest)
    decreases |t|
  {
    if t != [] {
      assert (t + rest)[1..] == t[1..] + rest;
      StripSgrPlainText(t[1..], rest);
      assert t == [t[0]] + t[1..];
    } else {
      assert t + rest == rest;
    }
  }

  /** `Colors.is_supported()` probes the terminal; it is a parameter here. The printer
      keeps only whether it colours its output. */
  datatype ColorPrinter = ColorPrinter(enabled: bool) {

    /** `ColorPrinter.__init__`: an explicit choice wins over detection. */
    static function Create(enabled: Option<bool>, supported: bool): (pr: ColorPrinter)
      ensures enabled.Some? ==> pr.enabled == enabled.value
      ensures enabled.None? ==> pr.enabled == supported
    {
      ColorPrinter(enabled.GetOr(supported))
    }

    /** `colorize`: unchanged when disabled; otherwise the colour, BOLD when asked for, the
        text, and RESET so that what follows is not coloured. */
    function Colorize(text: string, color: string, bold: bool := false): (r: string)
      ensures !enabled ==> r == text
      ensures enabled ==> |r| >= |color| + |Reset| && r[..|color|] == color && r[|r| - |Reset|..] == Reset
      ensures enabled && !bold ==> r == color + text + Reset
      ensures enabled && bold ==> r == color + Bold + text + Reset
    {
      if !enabled then text
      else
        var result := color + (if bold then Bold else "");
        result + text + Reset
    }

    /** `print`: the text written to standard output, the coloured text and then `end`. */
    function Print(text: string, color: string := "", bold: bool := false, end: string := "\n"): (r: string)
      ensures enabled ==> r == color + (if bold then Bold else "") + text + Reset + end
      ensures !enabled ==> r == text + end
    {
      Colorize(text, color, bold) + end
    }

    /** `success`: green, bold only when asked. */
    function Success(text: string, bold: bool := false): (r: string)
      ensures enabled ==> r == Green + (if bold then Bold else "") + text + Reset + "\n"
      ensures !enabled ==> r == text + "\n"
    {
      Print(text, Green, bold)
    }

    /** `error`: red, bold unless asked not to be. */
    function Error(text: string, bold: bool := true): (r: string)
      ensures enabled ==> r == Red + (if bold then Bold else "") + text + Reset + "\n"
      ensures !enabled ==> r == text + "\n"
    {
      Print(text, Red, bold)
    }

    /** `warning`: yellow, bold only when asked. */
    function Warning(text: string, bold: bool := false): (r: string)
      ensures enabled ==> r == Yellow + (if bold then Bold else "") + text + Reset + "\n"
      ensures !enabled ==> r == text + "\n"
    {
      Print(text, Yellow, bold)
    }

    /** `info`: cyan, bold only when asked. */
    function Info(text: string, bold: bool := false): (r: string)
      ensures enabled ==> r == Cyan + (if bold then Bold else "") + text + Reset + "\n"
      ensures !enabled ==> r == text + "\n"
    {
      Print(text, Cyan, bold)
    }

    /** `debug`: grey, bold only when asked. */
    function Debug(text: string, bold: bool := false): (r: string)
      ensures enabled ==> r == Gray + (if bold then Bold else "") + text + Reset + "\n"
      ensures !enabled ==> r == text + "\n"
    {
      Print(text, Gray, bold)
    }

    /** `header`: always bold magenta. */
    function Header(text: string): (r: string)
      ensures enabled ==> r == Magenta + Bold + text + Reset + "\n"
      ensures !enabled ==> r == text + "\n"
    {
      Print(text, Magenta, true)
    }

    /** `highlight`: blue, never bold. */
    function Highlight(text: string): (r: string)
      ensures enabled ==> r == Blue + text + Reset + "\n"
      ensures !enabled ==> r == text + "\n"
    {
      Print(text, Blue, false)
    }
  }

  /** Escape sequences around plain text vanish on a terminal. */
  lemma {:induction false} StripSgrLayout(color: string, b: string, text: string, reset: string, end: string)
    requires color == [] || IsSgr(color)
    requires b == [] || IsSgr(b)
    requires IsSgr(reset) && Esc !in text && Esc !in end
    ensures StripSgr(color + b + text + reset + end) == text + end
  {
    var t1 := reset + end;
    StripSgrPlainText(end, []);
    assert end + [] == end;
    StripSgrAfterEscape(reset, end);
    assert StripSgr(t1) == end;
    var t2 := text + t1;
    StripSgrPlainText(text, t1);
    assert StripSgr(t2) == text + end;
    var t3 := b + t2;
    if b != [] {
      StripSgrAfterEscape(b, t2);
    } else {
      assert t3 == t2;
    }
    var t4 := color + t3;
    if color != [] {
      StripSgrAfterEscape(color, t3);
    } else {
      assert t4 == t3;
    }
    assert StripSgr(t4) == text + end;
    ConcatAssoc(color + b + text, reset, end);
    ConcatAssoc(color + b, text, t1);
    ConcatAssoc(color, b, t2);
  }

  /** Helper for StripSgrLayout: regrouping one concatenation. */
  lemma ConcatAssoc(x: string, y: string, z: string)
    ensures x + y + z == x + (y + z)
  {
  }

  /** Colouring is invisible on a terminal: stripping the escape sequences from what is
      printed gives back the text and the line ending, whatever the colour and weight. */
  lemma {:induction false} PrintShowsPlainText(pr: ColorPrinter, text: string, color: string, bold: bool, end: string)
    requires Esc !in text && Esc !in end
    requires color == [] || IsSgr(color)
    ensures StripSgr(pr.Print(text, color, bold, end)) == text + end
  {
    if !pr.enabled {
      StripSgrPlainText(text, end);
      StripSgrPlainText(end, []);
      assert end + [] == end;
    } else {
      SgrIsEscapeSequence("1");
      SgrIsEscapeSequence("0");
      StripSgrLayout(color, if bold then Bold else "", text, Reset, end);
    }
  }

  /** Each kind of message shows exactly its text, followed by a newline. */
  lemma {:induction false} MessagesShowTheirText(pr: ColorPrinter, text: string, bold: bool)
    requires Esc !in text
    ensures StripSgr(pr.Success(text, bold)) == text + "\n"
    ensures StripSgr(pr.Error(text, bold)) == text + "\n"
    ensures StripSgr(pr.Warning(text, bold)) == text + "\n"
    ensures StripSgr(pr.Info(text, bold)) == text + "\n"
    ensures StripSgr(pr.Debug(text, bold)) == text + "\n"
    ensures StripSgr(pr.Header(text)) == text + "\n"
    ensures StripSgr(pr.Highlight(text)) == text + "\n"
  {
    var nl := "\n";
    assert Esc !in nl;
    SgrIsEscapeSequence("32");
    PrintShowsPlainText(pr, text, Green, bold, nl);
    SgrIsEscapeSequence("31");
    PrintShowsPlainText(pr, text, Red, bold, nl);
    SgrIsEscapeSequence("33");
    PrintShowsPlainText(pr, text, Yellow, bold, nl);
    SgrIsEscapeSequence("36");
    PrintShowsPlainText(pr, text, Cyan, bold, nl);
    SgrIsEscapeSequence("90");
    PrintShowsPlainText(pr, text, Gray, bold, nl);
    SgrIsEscapeSequence("35");
    PrintShowsPlainText(pr, text, Magenta, true, nl);
    SgrIsEscapeSequence("34");
    PrintShowsPlainText(pr, text, Blue, false, nl);
  }
}

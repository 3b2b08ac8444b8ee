// The mini terminal window: its de-duplicating output buffer, command parsing
// and dispatch, history browsing with the arrow keys, and the ASCII banner.
module MiniTerminal {
  import opened Wrappers
  import opened Strings

  // ---------------------------------------------------------------------------
  // Output buffer

  /** Appends a line unless it repeats the line shown last. */
  function Push(lines: seq<string>, text: string): (r: seq<string>)
    ensures r != [] && r[|r| - 1] == text
    ensures r == lines || r == lines + [text]
    ensures r == lines <==> lines != [] && lines[|lines| - 1] == text
  {
    if |lines| > 0 && lines[|lines| - 1] == text then lines else lines + [text]
  }

  /** Pushes several lines, one after the other. */
  function PushAll(lines: seq<string>, texts: seq<string>): (r: seq<string>)
    ensures texts != [] ==> r != [] && r[|r| - 1] == texts[|texts| - 1]
    ensures texts == [] ==> r == lines
  {
    if texts == [] then lines
    else Push(PushAll(lines, texts[..|texts| - 1]), texts[|texts| - 1])
  }

  /** Pushing never removes or rewrites a line, adds at most one line per text, and ends with the last text. */
  lemma {:induction false} PushAllExtends(lines: seq<string>, texts: seq<string>)
    ensures var r := PushAll(lines, texts);
      && |lines| <= |r| <= |lines| + |texts|
      && r[..|lines|] == lines
      && (texts != [] ==> r[|r| - 1] == texts[|texts| - 1])
  {
    if texts != [] {
      PushAllExtends(lines, texts[..|texts| - 1]);
      var before := PushAll(lines, texts[..|texts| - 1]);
      assert PushAll(lines, texts) == Push(before, texts[|texts| - 1]);
      assert Push(before, texts[|texts| - 1])[..|before|] == before;
    }
  }

  /** Pushing the same line twice in a row has the effect of pushing it once. */
  lemma PushTwice(lines: seq<string>, text: string)
    ensures Push(Push(lines, text), text) == Push(lines, text)
  {
  }

  /** The lines printed while the terminal boots, one per interval tick. */
  const BOOT_LINES: seq<string> := [
    "RetroOS v0.9.7 - initializing...",
    "Loading pixel drivers...",
    "Mounting /dev/retro0",
    "Starting nostalgia-daemon...",
    "Initializing sound: OK",
    "Input subsystem: OK",
    "Welcome, traveller. Type 'help' for commands."
  ]

  const READY: string := "> Ready."

  /** The screen once booting has finished: the boot lines, then the ready line. */
  function BootScreen(): (s: seq<string>)
    ensures s != [] && s[|s| - 1] == READY
  {
    var booted := PushAll([], BOOT_LINES);
    assert PushAll(booted, [READY]) == Push(booted, READY);
    PushAll(booted, [READY])
  }

  /** No line of `texts` repeats the one before it, nor the last of `lines`. */
  predicate NoAdjacentRepeat(lines: seq<string>, texts: seq<string>) {
    && (forall i :: 0 < i < |texts| ==> texts[i - 1] != texts[i])
    && (lines != [] && texts != [] ==> lines[|lines| - 1] != texts[0])
  }

  /** Lines that never repeat their predecessor are all pushed, in order. */
  lemma {:induction false} PushAllNoRepeat(lines: seq<string>, texts: seq<string>)
    requires NoAdjacentRepeat(lines, texts)
    ensures PushAll(lines, texts) == lines + texts
    decreases |texts|
  {
    if texts != [] {
      var init, x := texts[..|texts| - 1], texts[|texts| - 1];
      assert NoAdjacentRepeat(lines, init) by {
        forall i | 0 < i < |init| ensures init[i - 1] != init[i] {
          assert init[i - 1] == texts[i - 1] && init[i] == texts[i];
        }
      }
      PushAllNoRepeat(lines, init);
      var before := lines + init;
      if init != [] {
        assert before[|before| - 1] == texts[|texts| - 2];
      }
      assert PushAll(lines, texts) == Push(before, x);
      assert before + [x] == lines + texts;
    }
  }

  /** No boot line repeats its predecessor, so booting shows every boot line and the ready line, in order. */
  lemma BootShowsAll()
    ensures BootScreen() == BOOT_LINES + [READY]
  {
    assert NoAdjacentRepeat([], BOOT_LINES) by {
      forall i | 0 < i < |BOOT_LINES| ensures BOOT_LINES[i - 1] != BOOT_LINES[i] {
        assert |BOOT_LINES[i - 1]| != |BOOT_LINES[i]|;
      }
    }
    PushAllNoRepeat([], BOOT_LINES);
    assert [] + BOOT_LINES == BOOT_LINES;
    assert |BOOT_LINES[|BOOT_LINES| - 1]| != |READY|;
    assert NoAdjacentRepeat(BOOT_LINES, [READY]);
    PushAllNoRepeat(BOOT_LINES, [READY]);
  }

  // ---------------------------------------------------------------------------
  // Commands

  /** A command split at its first space into a name and the rest of the text. */
  datatype Command = Command(name: string, arg: string)

  /** Splits on single spaces, keeps the first piece as the name and joins the others back with spaces. */
  function Parse(cmd: string): (c: Command)
    ensures ' ' !in c.name
    ensures ' ' in cmd ==> c.name + " " + c.arg == cmd
    ensures ' ' !in cmd ==> c.name == cmd && c.arg == ""
  {
    var parts := Split(cmd, ' ');
    SplitHead(cmd, ' ');
    JoinSplit(cmd, ' ');
    assert |parts| > 1 ==> Join(parts, " ") == parts[0] + " " + Join(parts[1..], " ");
    Command(parts[0], Join(parts[1..], " "))
  }

  /** What a command does besides printing. */
  datatype Effect = NoEffect | OpenGame | CloseLater

  /**
   * The reaction to a command: whether the screen is cleared, the lines
   * printed, a side effect, and whether the lines are printed verbatim
   * (banner rows) rather than through the de-duplicating push.
   */
  datatype Outcome = Outcome(clear: bool, out: seq<string>, effect: Effect, verbatim: bool)

  const HELP: seq<string> := [
    "help — show commands",
    "clear — clear screen",
    "date — show full date",
    "time — show HH:MM:SS",
    "whoami — show identity",
    "projects — list projects",
    "banner <text> — ASCII banner",
    "echo <text> — echo text",
    "game — play retro dino game",
    "exit — close terminal"
  ]

  const PROJECTS: seq<string> := [
    "Projects:",
    "- Rain Water Detection (Low-cost)",
    "- Terminal Bank (CS50x)",
    "- CS50P / Python Projects",
    "Tip: open Projects from the desktop to view certificates."
  ]

  const KNOWN: set<string> := {"help", "clear", "date", "time", "whoami", "projects", "echo", "banner", "game", "exit"}

  /** The word the banner command draws when it is given none. */
  const DEFAULT_BANNER: string := "RAHUL"

  function UnknownMessage(name: string): string {
    "Unknown command: " + name + ". Try 'help'."
  }

  /**
   * Dispatch on the lower-cased name. The current date and time are
   * locale-formatted strings from the clock, passed in.
   */
  function Dispatch(name: string, arg: string, today: string, now: string): (o: Outcome)
    ensures o.clear <==> Lower(name) == "clear"
    ensures o.clear ==> o.out == []
    ensures o.effect == OpenGame <==> Lower(name) == "game"
    ensures o.effect == CloseLater <==> Lower(name) == "exit"
    ensures o.verbatim <==> Lower(name) == "banner"
    ensures Lower(name) == "echo" ==> o.out == [arg]
    ensures Lower(name) == "banner" ==> o.out == Banner(if arg == "" then DEFAULT_BANNER else arg)
    ensures Lower(name) !in KNOWN ==> o == Outcome(false, [UnknownMessage(name)], NoEffect, false)
  {
    match Lower(name)
    case "help" => Outcome(false, HELP, NoEffect, false)
    case "clear" => Outcome(true, [], NoEffect, false)
    case "date" => Outcome(false, [today], NoEffect, false)
    case "time" => Outcome(false, [now], NoEffect, false)
    case "whoami" => Outcome(false, ["rahulseervi — Robotics & AI | Retro tinkerer"], NoEffect, false)
    case "projects" => Outcome(false, PROJECTS, NoEffect, false)
    case "echo" => Outcome(false, [arg], NoEffect, false)
    case "banner" => Outcome(false, Banner(if arg == "" then DEFAULT_BANNER else arg), NoEffect, true)
    case "game" => Outcome(false, ["Launching Dino game... (Press SPACE to jump)"], OpenGame, false)
    case "exit" => Outcome(false, ["closing terminal..."], CloseLater, false)
    case _ => Outcome(false, [UnknownMessage(name)], NoEffect, false)
  }

  /** Known commands ignore the case of their name. */
  lemma DispatchIgnoresCase(a: string, b: string, arg: string, today: string, now: string)
    requires Lower(a) == Lower(b) && Lower(a) in KNOWN
    ensures Dispatch(a, arg, today, now) == Dispatch(b, arg, today, now)
  {
  }

  /**
   * The screen after a non-blank command as the code computes it: the echoed
   * line, then every output line through the de-duplicating push, or nothing
   * after `clear`.
   */
  function ScreenAsWritten(lines: seq<string>, cmd: string, o: Outcome): (r: seq<string>)
    ensures o.clear ==> r == []
    ensures !o.clear ==>
      var echoed := Push(lines, "> " + cmd);
      && |echoed| <= |r| <= |echoed| + |o.out| && r[..|echoed|] == echoed
      && r[|r| - 1] == if o.out == [] then "> " + cmd else o.out[|o.out| - 1]
  {
    if o.clear then []
    else
      var echoed := Push(lines, "> " + cmd);
      PushAllExtends(echoed, o.out);
      PushAll(echoed, o.out)
  }

  /**
   * The screen after a non-blank command: the echoed line, then the output,
   * or nothing after `clear`. Banner rows are appended as they are; all other
   * output goes through the de-duplicating push.
   */
  function Screen(lines: seq<string>, cmd: string, o: Outcome): (r: seq<string>)
    ensures !o.clear && o.verbatim ==> r == Push(lines, "> " + cmd) + o.out
    ensures !o.verbatim ==> r == ScreenAsWritten(lines, cmd, o)
  {
    if o.clear then []
    else if o.verbatim then Push(lines, "> " + cmd) + o.out
    else PushAll(Push(lines, "> " + cmd), o.out)
  }

  /** The echoed command line stays on screen, ahead of the output, unless the screen was cleared. */
  lemma EchoComesFirst(lines: seq<string>, cmd: string, o: Outcome)
    requires !o.clear
    ensures var echoed := Push(lines, "> " + cmd);
      && |echoed| <= |Screen(lines, cmd, o)|
      && Screen(lines, cmd, o)[..|echoed|] == echoed
      && echoed[|echoed| - 1] == "> " + cmd
  {
    if !o.verbatim {
      PushAllExtends(Push(lines, "> " + cmd), o.out);
    } else {
      var echoed := Push(lines, "> " + cmd);
      assert (echoed + o.out)[..|echoed|] == echoed;
    }
  }

  /** A banner command shows all five rows of its banner, right after the echoed command. */
  lemma BannerShowsFiveRows(lines: seq<string>, cmd: string, today: string, now: string)
    requires Lower(Parse(cmd).name) == "banner"
    ensures var c := Parse(cmd);
      var rows := Banner(if c.arg == "" then DEFAULT_BANNER else c.arg);
      var echoed := Push(lines, "> " + cmd);
      && Screen(lines, cmd, Dispatch(c.name, c.arg, today, now)) == echoed + rows
      && |Screen(lines, cmd, Dispatch(c.name, c.arg, today, now))| == |echoed| + 5
  {
  }

  // ---------------------------------------------------------------------------
  // Banner

  /** The five rows drawn for characters the font does not have. */
  const BLANK_GLYPH: seq<string> := ["     ", "     ", "     ", "     ", "     "]

  /** The banner glyphs of the capital letters. */
  const LETTER_GLYPHS: map<char, seq<string>> := map[
    'A' := ["  ██  ", " █  █ ", " ████ ", " █  █ ", " █  █ "],
    'B' := [" ███  ", " █  █ ", " ███  ", " █  █ ", " ███  "],
    'C' := ["  ███ ", " █    ", " █    ", " █    ", "  ███ "],
    'D' := [" ███  ", " █  █ ", " █  █ ", " █  █ ", " ███  "],
    'E' := [" ████ ", " █    ", " ███  ", " █    ", " ████ "],
    'F' := [" ████ ", " █    ", " ███  ", " █    ", " █    "],
    'G' := ["  ███ ", " █    ", " █ ██ ", " █  █ ", "  ███ "],
    'H' := [" █  █ ", " █  █ ", " ████ ", " █  █ ", " █  █ "],
    'I' := [" ███ ", "  █  ", "  █  ", "  █  ", " ███ "],
    'J' := ["   ██ ", "    █ ", "    █ ", " █  █ ", "  ██  "],
    'K' := [" █  █ ", " █ █  ", " ██   ", " █ █  ", " █  █ "],
    'L' := [" █    ", " █    ", " █    ", " █    ", " ████ "],
    'M' := [" █   █ ", " ██ ██ ", " █ █ █ ", " █   █ ", " █   █ "],
    'N' := [" █  █ ", " ██ █ ", " █ ██ ", " █  █ ", " █  █ "],
    'O' := ["  ██  ", " █  █ ", " █  █ ", " █  █ ", "  ██  "],
    'P' := [" ███  ", " █  █ ", " ███  ", " █    ", " █    "],
    'Q' := ["  ██  ", " █  █ ", " █  █ ", " █ ██ ", "  ███ "],
    'R' := [" ███  ", " █  █ ", " ███  ", " █ █  ", " █  █ "],
    'S' := ["  ███ ", " █    ", "  ██  ", "    █ ", " ███  "],
    'T' := [" █████ ", "   █   ", "   █   ", "   █   ", "   █   "],
    'U' := [" █  █ ", " █  █ ", " █  █ ", " █  █ ", "  ██  "],
    'V' := [" █   █ ", " █   █ ", " █   █ ", "  █ █  ", "   █   "],
    'W' := [" █   █ ", " █   █ ", " █ █ █ ", " ██ ██ ", " █   █ "],
    'X' := [" █   █ ", "  █ █  ", "   █   ", "  █ █  ", " █   █ "],
    'Y' := [" █   █ ", "  █ █  ", "   █   ", "   █   ", "   █   "],
    'Z' := [" █████ ", "    █  ", "   █   ", "  █    ", " █████ "]
  ]

  /** The banner glyphs of the digits and space. */
  const DIGIT_GLYPHS: map<char, seq<string>> := map[
    '0' := [" ███ ", " █ █ ", " █ █ ", " █ █ ", " ███ "],
    '1' := [" ██  ", "  █  ", "  █  ", "  █  ", " ███ "],
    '2' := [" ███ ", "   █ ", " ███ ", " █   ", " ████"],
    '3' := [" ███ ", "   █ ", "  ██ ", "   █ ", " ███ "],
    '4' := [" █  █ ", " █  █ ", " ████ ", "    █ ", "    █ "],
    '5' := [" ████", " █   ", " ███ ", "    █", " ███ "],
    '6' := ["  ██ ", " █   ", " ███ ", " █  █", "  ██ "],
    '7' := [" ████", "    █", "   █ ", "  █  ", "  █  "],
    '8' := ["  ██ ", " █  █", "  ██ ", " █  █", "  ██ "],
    '9' := ["  ██ ", " █  █", "  ███", "    █", "  ██ "],
    ' ' := ["     ", "     ", "     ", "     ", "     "]
  ]

  /** The banner font: capital letters, digits and space. */
  const FONT: map<char, seq<string>> := LETTER_GLYPHS + DIGIT_GLYPHS

  /** A glyph is five rows of one width. */
  predicate Rectangular(g: seq<string>) {
    |g| == 5 && |g[1]| == |g[0]| && |g[2]| == |g[0]| && |g[3]| == |g[0]| && |g[4]| == |g[0]|
  }

  /** A font whose every glyph is rectangular. */
  predicate ValidFont(font: map<char, seq<string>>) {
    forall c :: c in font ==> Rectangular(font[c])
  }

  lemma LetterGlyphsValid()
    ensures ValidFont(LETTER_GLYPHS)
  {
  }

  lemma DigitGlyphsValid()
    ensures ValidFont(DIGIT_GLYPHS)
  {
  }

  /** Every glyph of the banner font is a rectangle. */
  lemma FontValid()
    ensures ValidFont(FONT)
  {
    LetterGlyphsValid();
    DigitGlyphsValid();
  }

  /** The glyph drawn for a character: anything missing from the font draws blank. */
  function GlyphIn(font: map<char, seq<string>>, c: char): (g: seq<string>)
    requires ValidFont(font)
    ensures Rectangular(g)
    ensures c !in font ==> g == BLANK_GLYPH
  {
    if c in font then font[c] else BLANK_GLYPH
  }

  /** What one character adds to row `i`: its glyph row and a two-space gap. */
  function Cell(font: map<char, seq<string>>, c: char, i: nat): string
    requires ValidFont(font) && i < 5
  {
    GlyphIn(font, c)[i] + "  "
  }

  /** Row `i` of the banner for already upper-cased characters. */
  function BannerRow(font: map<char, seq<string>>, chars: string, i: nat): string
    requires ValidFont(font) && i < 5
  {
    if chars == [] then ""
    else BannerRow(font, chars[..|chars| - 1], i) + Cell(font, chars[|chars| - 1], i)
  }

  /** The five banner rows of a text in a font, upper-cased first. */
  function BannerWith(font: map<char, seq<string>>, text: string): (rows: seq<string>)
    requires ValidFont(font)
    ensures |rows| == 5
  {
    seq(5, i requires 0 <= i < 5 => BannerRow(font, Upper(text), i))
  }

  /** Adding a character puts its cell at the end of the banner row. */
  lemma BannerRowSnoc(font: map<char, seq<string>>, s: string, c: char, i: nat)
    requires ValidFont(font) && i < 5
    ensures BannerRow(font, s + [c], i) == BannerRow(font, s, i) + Cell(font, c, i)
  {
    assert (s + [c])[..|s|] == s;
  }

  lemma ConcatAssoc(x: string, y: string, z: string)
    ensures (x + y) + z == x + (y + z)
  {
  }

  /** A banner row is the rows of its pieces side by side. */
  lemma {:induction false} BannerRowAppend(font: map<char, seq<string>>, a: string, b: string, i: nat)
    requires ValidFont(font) && i < 5
    ensures BannerRow(font, a + b, i) == BannerRow(font, a, i) + BannerRow(font, b, i)
    decreases |b|
  {
    if b == [] {
      assert a + b == a;
    } else {
      var b', c := b[..|b| - 1], b[|b| - 1];
      assert b == b' + [c];
      assert a + b == (a + b') + [c];
      BannerRowAppend(font, a, b', i);
      BannerRowSnoc(font, a + b', c, i);
      BannerRowSnoc(font, b', c, i);
      ConcatAssoc(BannerRow(font, a, i), BannerRow(font, b', i), Cell(font, c, i));
    }
  }

  /** All five rows of a banner have the same width. */
  lemma {:induction false} BannerRowsAligned(font: map<char, seq<string>>, chars: string, i: nat)
    requires ValidFont(font) && i < 5
    ensures |BannerRow(font, chars, i)| == |BannerRow(font, chars, 0)|
    decreases |chars|
  {
    if chars != [] {
      BannerRowsAligned(font, chars[..|chars| - 1], i);
    }
  }

  /** The banner command's five rows, in the banner font: all of one width. */
  function Banner(text: string): (rows: seq<string>)
    ensures |rows| == 5
    ensures forall i :: 0 <= i < 5 ==> |rows[i]| == |rows[0]|
  {
    FontValid();
    var rows := BannerWith(FONT, text);
    forall i | 0 <= i < 5 ensures |rows[i]| == |rows[0]| {
      BannerRowsAligned(FONT, Upper(text), i);
    }
    rows
  }

  /** The glyph of `I`: a bar, three identical stem rows, a bar. */
  lemma GlyphOfI()
    ensures 'I' in FONT && FONT['I'] == [" ███ ", "  █  ", "  █  ", "  █  ", " ███ "]
  {
    assert 'I' !in DIGIT_GLYPHS;
  }

  /** The banner of a single upper-case character: its glyph's rows, each followed by the gap. */
  lemma BannerWithSingle(font: map<char, seq<string>>, c: char)
    requires ValidFont(font) && UpperChar(c) == c
    ensures forall i :: 0 <= i < 5 ==> BannerWith(font, [c])[i] == GlyphIn(font, c)[i] + "  "
  {
    assert Upper([c]) == [] + [c];
    forall i | 0 <= i < 5 ensures BannerRow(font, Upper([c]), i) == GlyphIn(font, c)[i] + "  " {
      BannerRowSnoc(font, [], c, i);
    }
  }

  /** The banner of `I` has five rows: a bar, three equal stem rows, the bar again. */
  lemma BannerOfI()
    ensures var b := Banner("I");
      && b[0] == " ███   " && b[1] == "  █    "
      && b[2] == b[1] && b[3] == b[1] && b[4] == b[0]
  {
    FontValid();
    GlyphOfI();
    BannerWithSingle(FONT, 'I');
  }

  /** Pushing a bar, three equal stem rows and a bar keeps one stem row only. */
  lemma {:induction false} PushCollapsesStem(e: seq<string>, bar: string, stem: string)
    requires e != [] && e[|e| - 1] != bar && bar != stem
    ensures PushAll(e, [bar, stem, stem, stem, bar]) == e + [bar, stem, bar]
  {
    var rows := [bar, stem, stem, stem, bar];
    assert rows[..0] == [] && rows[..1] == [bar] && rows[..2] == [bar, stem];
    assert rows[..3] == [bar, stem, stem] && rows[..4] == [bar, stem, stem, stem];
    assert rows[..1][..0] == rows[..0] && rows[..2][..1] == rows[..1] && rows[..3][..2] == rows[..2];
    assert rows[..4][..3] == rows[..3] && rows[..5][..4] == rows[..4] && rows[..5] == rows;
    assert PushAll(e, rows[..1]) == e + [bar];
    assert PushAll(e, rows[..2]) == e + [bar, stem];
    assert PushAll(e, rows[..3]) == e + [bar, stem];
    assert PushAll(e, rows[..4]) == e + [bar, stem];
  }

  /**
   * As written, the banner rows go through the de-duplicating push, so
   * `banner I` loses two of its three stem rows: the screen shows the echoed
   * command and three rows instead of five.
   */
  lemma BannerRowsCollapseAsWritten(today: string, now: string)
    ensures var o := Dispatch("banner", "I", today, now);
      && ScreenAsWritten([], "banner I", o) == ["> banner I", " ███   ", "  █    ", " ███   "]
      && |Screen([], "banner I", o)| == 6
  {
    BannerOfI();
    assert Lower("banner") == "banner";
    var o := Dispatch("banner", "I", today, now);
    assert "> " + "banner I" == "> banner I";
    StemCollapses("banner I", o);
  }

  /**
   * Output shaped like a stem glyph (a bar, three equal stem rows, the bar
   * again), pushed after the echoed command on an empty screen, keeps only
   * one stem row.
   */
  lemma StemCollapses(cmd: string, o: Outcome)
    requires !o.clear && |o.out| == 5
    requires o.out[2] == o.out[1] && o.out[3] == o.out[1] && o.out[4] == o.out[0]
    requires o.out[0] != o.out[1] && o.out[0] != "> " + cmd
    ensures ScreenAsWritten([], cmd, o) == ["> " + cmd, o.out[0], o.out[1], o.out[0]]
  {
    var e := Push([], "> " + cmd);
    assert e == ["> " + cmd];
    assert o.out == [o.out[0], o.out[1], o.out[1], o.out[1], o.out[0]];
    PushCollapsesStem(e, o.out[0], o.out[1]);
  }

  /** The banner of the empty text is five empty rows. */
  lemma BannerOfEmpty()
    ensures Banner("") == ["", "", "", "", ""]
  {
  }

  /** A character the font lacks, even once upper-cased, draws as five spaces followed by the two-space gap. */
  lemma UnknownCharIsBlank(c: char)
    requires UpperChar(c) !in FONT
    ensures Banner([c]) == ["       ", "       ", "       ", "       ", "       "]
  {
    FontValid();
    var chars := Upper([c]);
    assert chars == [] + [UpperChar(c)];
    forall i | 0 <= i < 5 ensures BannerRow(FONT, chars, i) == "       " {
      BannerRowSnoc(FONT, [], UpperChar(c), i);
    }
  }

  /** Appends a glyph's rows, each followed by the gap, to the five output rows. */
  method AppendGlyph(rows: array<string>, glyph: seq<string>)
    requires rows.Length == 5 && |glyph| == 5
    modifies rows
    ensures forall j :: 0 <= j < 5 ==> rows[j] == old(rows[j]) + glyph[j] + "  "
  {
    for i := 0 to 5
      invariant forall j :: 0 <= j < i ==> rows[j] == old(rows[j]) + glyph[j] + "  "
      invariant forall j :: i <= j < 5 ==> rows[j] == old(rows[j])
    {
      rows[i] := rows[i] + glyph[i] + "  ";
    }
  }

  /** Appending the next character's glyph to every row of a prefix's banner gives the banner of the prefix one longer. */
  lemma RowsSnoc(font: map<char, seq<string>>, chars: string, k: nat, before: seq<string>, after: seq<string>)
    requires ValidFont(font) && k < |chars| && |before| == 5 && |after| == 5
    requires forall j :: 0 <= j < 5 ==> before[j] == BannerRow(font, chars[..k], j)
    requires forall j :: 0 <= j < 5 ==> after[j] == before[j] + GlyphIn(font, chars[k])[j] + "  "
    ensures forall j :: 0 <= j < 5 ==> after[j] == BannerRow(font, chars[..k + 1], j)
  {
    assert chars[..k + 1] == chars[..k] + [chars[k]];
    forall j | 0 <= j < 5 ensures after[j] == BannerRow(font, chars[..k + 1], j) {
      BannerRowSnoc(font, chars[..k], chars[k], j);
    }
  }

  /** Builds the banner row by row, one character at a time, into five growing strings. */
  method RenderBanner(font: map<char, seq<string>>, text: string) returns (out: seq<string>)
    requires ValidFont(font)
    ensures out == BannerWith(font, text)
  {
    var chars := Upper(text);
    var rows := new string[5](_ => "");
    for k := 0 to |chars|
      invariant forall j :: 0 <= j < 5 ==> rows[j] == BannerRow(font, chars[..k], j)
    {
      ghost var before := rows[..];
      AppendGlyph(rows, GlyphIn(font, chars[k]));
      RowsSnoc(font, chars, k, before, rows[..]);
    }
    assert chars[..|chars|] == chars;
    out := rows[..];
  }

  // ---------------------------------------------------------------------------
  // History browsing

  /** The history position after ArrowUp: the newest entry when not browsing, else one older, stopping at the oldest. */
  function BrowseUp(len: nat, idx: Option<nat>): (r: Option<nat>)
    requires len > 0 && (idx.Some? ==> idx.value < len)
    ensures r.Some? && r.value < len
    ensures idx.None? ==> r.value == len - 1
    ensures idx.Some? && idx.value > 0 ==> r.value == idx.value - 1
    ensures idx.Some? && idx.value == 0 ==> r.value == 0
  {
    match idx
    case None => Some(len - 1)
    case Some(i) => Some(if i - 1 >= 0 then i - 1 else 0)
  }

  /** The history position after ArrowDown from a browsed entry: one newer, or back to not browsing past the newest. */
  function BrowseDown(len: nat, i: nat): (r: Option<nat>)
    ensures r.Some? ==> r.value == i + 1 && r.value < len
    ensures r.None? <==> i + 1 >= len
  {
    if i + 1 >= len then None else Some(i + 1)
  }

  /** Going down after going up returns to where browsing was, unless it stopped at the oldest entry or started fresh. */
  lemma UpThenDown(len: nat, i: nat)
    requires 0 < i < len
    ensures BrowseDown(len, BrowseUp(len, Some(i)).value) == Some(i)
  {
  }

  /** From not browsing, ArrowUp then ArrowDown leaves browsing again. */
  lemma UpThenDownFromFresh(len: nat)
    requires len > 0
    ensures BrowseDown(len, BrowseUp(len, None).value) == None
  {
  }

  /** The keys the input box reacts to. */
  datatype TermKey = Enter | ArrowUp | ArrowDown | OtherKey

  // ---------------------------------------------------------------------------
  // The terminal

  class Terminal {
    var lines: seq<string>
    var input: string
    /** Commands run so far, oldest first, trimmed. */
    var history: seq<string>
    /** The browsed history entry, or None when not browsing. */
    var historyIndex: Option<nat>
    var showGame: bool
    /** How many `exit` commands scheduled closing the window. */
    var closeScheduled: nat

    ghost predicate Valid()
      reads this
    {
      historyIndex.Some? ==> historyIndex.value < |history|
    }

    /** A terminal that has finished booting: it starts clean and prints each boot line, then the ready line. */
    constructor ()
      ensures Valid()
      ensures lines == BootScreen() && lines == BOOT_LINES + [READY]
      ensures input == "" && history == [] && historyIndex == None
      ensures !showGame && closeScheduled == 0
    {
      lines := [];
      input := "";
      history := [];
      historyIndex := None;
      showGame := false;
      closeScheduled := 0;
      new;
      PushLines(BOOT_LINES);
      PushLines([READY]);
      BootShowsAll();
    }

    /** Text typed into the input box. */
    method Type(text: string)
      modifies this`input
      ensures input == text
    {
      input := text;
    }

    /** Pushes one line. */
    method Push1(text: string)
      modifies this`lines
      ensures lines == Push(old(lines), text)
    {
      if |lines| > 0 && lines[|lines| - 1] == text {
        return;
      }
      lines := lines + [text];
    }

    /** Pushes lines one after the other. */
    method PushLines(texts: seq<string>)
      modifies this`lines
      ensures lines == PushAll(old(lines), texts)
    {
      for k := 0 to |texts|
        invariant lines == PushAll(old(lines), texts[..k])
      {
        assert texts[..k + 1][..k] == texts[..k];
        Push1(texts[k]);
      }
      assert texts[..|texts|] == texts;
    }

    /** Echoes a command and shows its output, or clears the screen. */
    method ShowOutput(cmd: string, o: Outcome)
      modifies this`lines
      ensures lines == Screen(old(lines), cmd, o)
    {
      Push1("> " + cmd);
      if o.clear {
        lines := [];
      } else if o.verbatim {
        lines := lines + o.out;
      } else {
        PushLines(o.out);
      }
    }

    /** Opens the game, or schedules closing the window. */
    method ApplyEffect(e: Effect)
      modifies this`showGame, this`closeScheduled
      ensures showGame == (old(showGame) || e == OpenGame)
      ensures closeScheduled == old(closeScheduled) + (if e == CloseLater then 1 else 0)
    {
      if e == OpenGame {
        showGame := true;
      } else if e == CloseLater {
        closeScheduled := closeScheduled + 1;
      }
    }

    /** Records a non-blank, trimmed command, echoes it and dispatches it. */
    method Execute(cmd: string, today: string, now: string)
      requires Valid()
      modifies this`lines, this`history, this`historyIndex, this`showGame, this`closeScheduled
      ensures Valid()
      ensures var c := Parse(cmd);
        var o := Dispatch(c.name, c.arg, today, now);
        && history == old(history) + [cmd] && historyIndex == None
        && lines == Screen(old(lines), cmd, o)
        && showGame == (old(showGame) || o.effect == OpenGame)
        && closeScheduled == old(closeScheduled) + (if o.effect == CloseLater then 1 else 0)
    {
      history := history + [cmd];
      historyIndex := None;
      var c := Parse(cmd);
      var o := Dispatch(c.name, c.arg, today, now);
      ShowOutput(cmd, o);
      ApplyEffect(o.effect);
    }

    /**
     * The screen, history, game flag and close count after running the command
     * line `raw`: blank input changes none of them; anything else is trimmed,
     * recorded, echoed with its output, and its effect applied.
     */
    twostate predicate Ran(raw: string, today: string, now: string)
      reads this`lines, this`history, this`historyIndex, this`showGame, this`closeScheduled
    {
      if Trim(raw) == "" then
        && lines == old(lines) && history == old(history) && historyIndex == old(historyIndex)
        && showGame == old(showGame) && closeScheduled == old(closeScheduled)
      else
        var cmd := Trim(raw);
        var c := Parse(cmd);
        var o := Dispatch(c.name, c.arg, today, now);
        && history == old(history) + [cmd] && historyIndex == None
        && lines == Screen(old(lines), cmd, o)
        && showGame == (old(showGame) || o.effect == OpenGame)
        && closeScheduled == old(closeScheduled) + (if o.effect == CloseLater then 1 else 0)
    }

    /** Runs a command line: blank input does nothing; anything else is trimmed and executed. */
    method RunCommand(raw: string, today: string, now: string)
      requires Valid()
      modifies this`lines, this`history, this`historyIndex, this`showGame, this`closeScheduled
      ensures Valid()
      ensures Ran(raw, today, now)
    {
      var cmd := Trim(raw);
      if cmd == "" {
        return;
      }
      Execute(cmd, today, now);
    }

    /** Enter or the RUN button: run what was typed and empty the input box. */
    method Submit(today: string, now: string)
      requires Valid()
      modifies this`lines, this`input, this`history, this`historyIndex, this`showGame, this`closeScheduled
      ensures Valid()
      ensures input == ""
      ensures Ran(old(input), today, now)
    {
      RunCommand(input, today, now);
      input := "";
    }

    /** The arrow keys browse the history; Enter submits. */
    method KeyDown(key: TermKey, today: string, now: string)
      requires Valid()
      modifies this
      ensures Valid()
      ensures key == ArrowUp && old(history) != [] ==>
        && historyIndex == BrowseUp(|old(history)|, old(historyIndex))
        && input == history[historyIndex.value]
      ensures key == ArrowDown && history != [] && old(historyIndex).None? ==>
        historyIndex == None && input == ""
      ensures key == ArrowDown && history != [] && old(historyIndex).Some? ==>
        && historyIndex == BrowseDown(|history|, old(historyIndex).value)
        && input == (if historyIndex.Some? then history[historyIndex.value] else "")
      ensures key == Enter ==> input == "" && Ran(old(input), today, now)
      ensures key != Enter ==>
        && lines == old(lines) && history == old(history)
        && showGame == old(showGame) && closeScheduled == old(closeScheduled)
      ensures (key == OtherKey || ((key == ArrowUp || key == ArrowDown) && history == [])) ==>
        historyIndex == old(historyIndex) && input == old(input)
    {
      match key
      case Enter =>
        Submit(today, now);
      case ArrowUp =>
        if |history| == 0 {
          return;
        }
        var next := if historyIndex.None? then |history| - 1 else if historyIndex.value - 1 >= 0 then historyIndex.value - 1 else 0;
        historyIndex := Some(next);
        input := history[next];
      case ArrowDown =>
        if |history| == 0 {
          return;
        }
        if historyIndex.None? {
          input := "";
          return;
        }
        var next := historyIndex.value + 1;
        if next >= |history| {
          historyIndex := None;
          input := "";
        } else {
          historyIndex := Some(next);
          input := history[next];
        }
      case OtherKey =>
    }

    /** The game reported a final score: hide it and print the score. */
    method GameOver(score: nat)
      modifies this`showGame, this`lines
      ensures !showGame
      ensures lines == Push(old(lines), "Game Over — Exited Dino Game. Score: " + NatToString(score))
    {
      showGame := false;
      lines := Push(lines, "Game Over — Exited Dino Game. Score: " + NatToString(score));
    }

    /** The game was quit without a score. */
    method GameClosed()
      modifies this`showGame
      ensures !showGame
    {
      showGame := false;
    }
  }
}

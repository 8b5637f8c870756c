/**
 * The colour codes of the terminal and the one-line notices built from them.
 * The tool keeps its eight codes as class-level attributes that `--no-color`
 * blanks out for the rest of the run; here they are the fields of one
 * `Colors` object, and every function that builds a line takes the codes in
 * force at that moment as a `Palette` value.
 */
module Terminal {

  /** The eight codes, as they stand when a line is built. */
  datatype Palette = Palette(
    reset: string, red: string, green: string, yellow: string,
    blue: string, cyan: string, gray: string, bold: string)

  /** The ANSI escape sequences the tool starts with. */
  const Ansi := Palette(
    "\U{1B}[0m", "\U{1B}[91m", "\U{1B}[92m", "\U{1B}[93m",
    "\U{1B}[94m", "\U{1B}[96m", "\U{1B}[90m", "\U{1B}[1m")

  /** The codes after colours are disabled: all empty. */
  const Plain := Palette("", "", "", "", "", "", "", "")

  class Colors {
    var reset: string
    var red: string
    var green: string
    var yellow: string
    var blue: string
    var cyan: string
    var gray: string
    var bold: string

    /** The codes currently in force. */
    function Codes(): Palette
      reads this
    {
      Palette(reset, red, green, yellow, blue, cyan, gray, bold)
    }

    /** The class as the program loads it: every code is its ANSI sequence. */
    constructor ()
      ensures Codes() == Ansi
    {
      reset, red, green, yellow := Ansi.reset, Ansi.red, Ansi.green, Ansi.yellow;
      blue, cyan, gray, bold := Ansi.blue, Ansi.cyan, Ansi.gray, Ansi.bold;
    }

    /**
     * `Colors.disable()`: every code becomes the empty string. Once that
     * has happened, a further call changes nothing.
     */
    method Disable()
      modifies this
      ensures Codes() == Plain
      ensures old(Codes()) == Plain ==> unchanged(this)
    {
      reset, red, green, yellow := "", "", "", "";
      blue, cyan, gray, bold := "", "", "", "";
    }
  }

  const SymbolOk := '\U{2714}'
  const SymbolError := '\U{2716}'
  const SymbolWarning := '\U{26A0}'
  const SymbolInfo := '\U{2139}'

  /** The four message helpers: print_success, print_error, print_warning and print_info. */
  datatype Notice = Success | Failure | Caution | Information

  function NoticeColour(p: Palette, kind: Notice): string
  {
    match kind
    case Success => p.green
    case Failure => p.red
    case Caution => p.yellow
    case Information => p.blue
  }

  function NoticeSymbol(kind: Notice): char
  {
    match kind
    case Success => SymbolOk
    case Failure => SymbolError
    case Caution => SymbolWarning
    case Information => SymbolInfo
  }

  /**
   * The line a message helper prints: the coloured symbol, a space, then
   * the text unchanged at the end of the line.
   */
  function NoticeLine(p: Palette, kind: Notice, text: string): (line: string)
    ensures |line| >= |text| + 2 && line[|line| - |text|..] == text
    ensures p == Plain ==> line == [NoticeSymbol(kind), ' '] + text
  {
    NoticeColour(p, kind) + [NoticeSymbol(kind)] + p.reset + " " + text
  }
}

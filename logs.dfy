/**
 * The logs commands: `logs tail` shows the last entries of the log through
 * Python's slice `entries[-n:]`, with n read by `int()` from the `--lines`
 * argument; `logs search` highlights the query in each message with
 * `str.replace`.
 */
module Logs {
  import opened Wrappers
  import opened Builtins
  import opened Terminal
  import opened Layout

  datatype Entry = Entry(timestamp: string, level: string, service: string, message: string)

  /**
   * `entries[-n:]`. For 1 <= n <= |entries| the last n entries in order; all
   * of them when n is larger, and also when n == 0 (since -0 == 0); a
   * negative n drops the first -n entries instead.
   */
  function Tail<T>(entries: seq<T>, n: int): (r: seq<T>)
    ensures 0 < n <= |entries| ==> r == entries[|entries| - n..]
    ensures n >= |entries| ==> r == entries
    ensures n == 0 ==> r == entries
    ensures n < 0 ==> r == entries[Min(-n, |entries|)..]
  {
    SliceFrom(entries, -n)
  }

  /** The severity classes of a log line. */
  datatype Level = Info | Warning | Error

  /** cmd_logs_tail: "INFO" and "WARNING" have their own class; anything else is shown as an error. */
  function LevelOf(level: string): (l: Level)
    ensures l == Info <==> level == "INFO"
    ensures l == Warning <==> level == "WARNING"
    ensures l == Error <==> level != "INFO" && level != "WARNING"
  {
    if level == "INFO" then Info else if level == "WARNING" then Warning else Error
  }

  /** The word shown for each class. */
  function LevelWord(l: Level): string
  {
    match l
    case Info => "INFO"
    case Warning => "WARN"
    case Error => "ERROR"
  }

  /** The colour of each class: blue, yellow, red. */
  function LevelColour(p: Palette, l: Level): string
  {
    match l
    case Info => p.blue
    case Warning => p.yellow
    case Error => p.red
  }

  /** The coloured label: blue INFO, yellow WARN, red ERROR. */
  function LevelLabel(p: Palette, l: Level): string
  {
    LevelColour(p, l) + LevelWord(l) + p.reset
  }

  /** One line of `logs tail`: timestamp, level label, service in brackets, message. */
  function LogLine(p: Palette, e: Entry): string
  {
    p.gray + e.timestamp + p.reset + " " + LevelLabel(p, LevelOf(e.level)) + " "
      + p.cyan + "[" + e.service + "]" + p.reset + " " + e.message
  }

  /**
   * A log line opens with the timestamp in grey and a space, followed by
   * the label of the entry's level class (the level the entry carries
   * decides the word and the colour shown), and ends with the message.
   */
  lemma LogLineLayout(p: Palette, e: Entry)
    ensures var ts, tag := p.gray + e.timestamp + p.reset + " ", LevelLabel(p, LevelOf(e.level));
      var line := LogLine(p, e);
      && |line| >= |ts| + |tag| + |e.message|
      && line[..|ts|] == ts
      && line[|ts|..|ts| + |tag|] == tag
      && line[|line| - |e.message|..] == e.message
  {
    var ts, tag := p.gray + e.timestamp + p.reset + " ", LevelLabel(p, LevelOf(e.level));
    var rest := " " + p.cyan + "[" + e.service + "]" + p.reset + " " + e.message;
    assert LogLine(p, e) == ts + (tag + rest);
    assert (ts + (tag + rest))[|ts|..|ts| + |tag|] == tag;
    var front := ts + tag + " " + p.cyan + "[" + e.service + "]" + p.reset + " ";
    assert LogLine(p, e) == front + e.message;
  }

  /** Without colours a log line is the timestamp, the level word, the bracketed service and the message. */
  lemma PlainLogLine(e: Entry)
    ensures LogLine(Plain, e) == e.timestamp + " " + LevelWord(LevelOf(e.level)) + " [" + e.service + "] " + e.message
  {
    var w := LevelWord(LevelOf(e.level));
    assert LevelLabel(Plain, LevelOf(e.level)) == w;
    assert Plain.gray + e.timestamp + Plain.reset + " " == e.timestamp + " ";
    assert Plain.cyan + "[" + e.service + "]" + Plain.reset == "[" + e.service + "]";
    assert LogLine(Plain, e) == (e.timestamp + " ") + w + " " + ("[" + e.service + "]") + " " + e.message;
  }

  /** `args.service or default`: an absent or empty service name gives the default. */
  function OrDefault(service: Option<string>, default: string): (r: string)
    ensures service.Some? && service.value != "" ==> r == service.value
    ensures service.None? || service.value == "" ==> r == default
  {
    if service.Some? && service.value != "" then service.value else default
  }

  /**
   * cmd_logs_tail. The header and a blank line come first; `int()` then
   * either raises (a non-integer `--lines`), or the selected entries are
   * printed one per line, followed by a blank line.
   */
  method LogsTail(p: Palette, service: Option<string>, linesArg: string, entries: seq<Entry>)
    returns (lines: seq<string>, raised: bool)
    ensures |lines| >= 4 && lines[..4] == SectionHeader(p, "LOGS: " + OrDefault(service, "system")) + [""]
    ensures raised <==> ParseInt(linesArg).None?
    ensures raised ==> |lines| == 4
    ensures !raised ==> var shown := Tail(entries, ParseInt(linesArg).value);
      && |lines| == 5 + |shown|
      && (forall i :: 0 <= i < |shown| ==> lines[4 + i] == LogLine(p, shown[i]))
      && lines[|lines| - 1] == ""
  {
    var top := SectionHeader(p, "LOGS: " + OrDefault(service, "system")) + [""];
    var printed;
    printed, raised := TailEntries(p, linesArg, entries);
    if raised {
      assert top[..4] == top;
      lines := top;
    } else {
      lines := top + printed + [""];
      Framed(top, printed, "");
    }
  }

  /** A sequence between a prefix and a last element keeps its positions, shifted by the prefix. */
  lemma Framed<T>(top: seq<T>, middle: seq<T>, last: T)
    ensures var s := top + middle + [last];
      && |s| == |top| + |middle| + 1
      && s[..|top|] == top
      && (forall j :: 0 <= j < |middle| ==> s[|top| + j] == middle[j])
      && s[|s| - 1] == last
  {
  }

  /** `log_entries[-int(args.lines):]`, printed: None raised by `int()`, or one line per selected entry. */
  method TailEntries(p: Palette, linesArg: string, entries: seq<Entry>) returns (printed: seq<string>, raised: bool)
    ensures raised <==> ParseInt(linesArg).None?
    ensures !raised ==> var shown := Tail(entries, ParseInt(linesArg).value);
      && |printed| == |shown|
      && (forall i :: 0 <= i < |shown| ==> printed[i] == LogLine(p, shown[i]))
  {
    var n := ParseInt(linesArg);
    raised := n.None?;
    printed := [];
    if !raised {
      printed := ShowEntries(p, Tail(entries, n.value));
    }
  }

  /** The loop of cmd_logs_tail: one line per entry, in order. */
  method ShowEntries(p: Palette, shown: seq<Entry>) returns (printed: seq<string>)
    ensures |printed| == |shown|
    ensures forall i :: 0 <= i < |shown| ==> printed[i] == LogLine(p, shown[i])
  {
    printed := [];
    var i := 0;
    while i < |shown|
      invariant 0 <= i <= |shown|
      invariant |printed| == i
      invariant forall j :: 0 <= j < i ==> printed[j] == LogLine(p, shown[j])
    {
      printed := printed + [LogLine(p, shown[i])];
      i := i + 1;
    }
  }

  /** The five entries `logs tail` shows from. */
  const ShippedLog := [
    Entry("2024-12-14 14:32:15", "INFO", "nginx", "Request processed successfully"),
    Entry("2024-12-14 14:32:18", "INFO", "app", "User login: admin"),
    Entry("2024-12-14 14:32:22", "WARNING", "postgresql", "Slow query detected (2.3s)"),
    Entry("2024-12-14 14:32:25", "ERROR", "app", "Failed to connect to API endpoint"),
    Entry("2024-12-14 14:32:28", "INFO", "nginx", "SSL certificate renewed")]

  /**
   * On the shipped log: `--lines 3` shows entries 3 to 5, the default
   * `--lines 10` and `--lines 0` show all five, `--lines -2` drops the first
   * two, and `--lines abc` raises.
   */
  lemma ShippedTail()
    ensures ParseInt("3") == Some(3) && Tail(ShippedLog, 3) == ShippedLog[2..]
    ensures ParseInt("10") == Some(10) && Tail(ShippedLog, 10) == ShippedLog
    ensures ParseInt("0") == Some(0) && Tail(ShippedLog, 0) == ShippedLog
    ensures ParseInt("-2") == Some(-2) && Tail(ShippedLog, -2) == ShippedLog[2..]
    ensures ParseInt("abc") == None
  {
    ParseExamples();
  }

  // ---------------------------------------------------------------------
  // logs search

  /** The message with every occurrence of the query wrapped in bold yellow. */
  function Highlight(p: Palette, query: string, message: string): string
  {
    Replace(message, query, p.bold + p.yellow + query + p.reset)
  }

  /** Once colours are disabled, highlighting leaves every message as it is. */
  lemma HighlightWithoutColours(query: string, message: string)
    ensures Highlight(Plain, query, message) == message
  {
    assert Plain.bold + Plain.yellow + query + Plain.reset == query;
    ReplaceBySelf(message, query);
  }

  /** A message that does not contain a non-empty query is not touched, whatever the colours. */
  lemma HighlightWithoutMatch(p: Palette, query: string, message: string)
    requires query != []
    requires forall i :: 0 <= i <= |message| ==> !OccursAt(message, query, i)
    ensures Highlight(p, query, message) == message
  {
    ReplaceWithoutOccurrence(message, query, p.bold + p.yellow + query + p.reset);
  }

  /** One line of `logs search`: the level is always printed as a red ERROR. */
  function SearchLine(p: Palette, query: string, e: Entry): string
  {
    p.gray + e.timestamp + p.reset + " " + p.red + "ERROR" + p.reset + " "
      + p.cyan + "[" + e.service + "]" + p.reset + " " + Highlight(p, query, e.message)
  }

  /** Without colours a search line is the timestamp, "ERROR", the bracketed service and the message itself. */
  lemma PlainSearchLine(query: string, e: Entry)
    ensures SearchLine(Plain, query, e) == e.timestamp + " ERROR [" + e.service + "] " + e.message
  {
    HighlightWithoutColours(query, e.message);
  }

  /**
   * cmd_logs_search: the header, where and how far back it searched, the
   * fixed "Found 3 matches:" banner, then one line per match and a blank
   * line. The matches are given, not filtered by the query.
   */
  method LogsSearch(p: Palette, query: string, service: Option<string>, hours: string, matches: seq<Entry>)
    returns (lines: seq<string>)
    ensures |lines| == 9 + |matches|
    ensures lines[..3] == SectionHeader(p, "LOG SEARCH: '" + query + "'")
    ensures lines[3] == NoticeLine(p, Information, "Searching in: " + OrDefault(service, "all services"))
    ensures lines[4] == NoticeLine(p, Information, "Time range: last " + hours + " hours")
    ensures lines[5..8] == ["", p.green + "Found 3 matches:" + p.reset, ""]
    ensures forall i :: 0 <= i < |matches| ==> lines[8 + i] == SearchLine(p, query, matches[i])
    ensures lines[|lines| - 1] == ""
  {
    lines := SectionHeader(p, "LOG SEARCH: '" + query + "'")
      + [NoticeLine(p, Information, "Searching in: " + OrDefault(service, "all services")),
         NoticeLine(p, Information, "Time range: last " + hours + " hours"),
         "", p.green + "Found 3 matches:" + p.reset, ""];
    var i := 0;
    while i < |matches|
      invariant 0 <= i <= |matches|
      invariant |lines| == 8 + i
      invariant lines[..3] == SectionHeader(p, "LOG SEARCH: '" + query + "'")
      invariant lines[3] == NoticeLine(p, Information, "Searching in: " + OrDefault(service, "all services"))
      invariant lines[4] == NoticeLine(p, Information, "Time range: last " + hours + " hours")
      invariant lines[5..8] == ["", p.green + "Found 3 matches:" + p.reset, ""]
      invariant forall j :: 0 <= j < i ==> lines[8 + j] == SearchLine(p, query, matches[j])
    {
      lines := lines + [SearchLine(p, query, matches[i])];
      i := i + 1;
    }
    lines := lines + [""];
  }
}

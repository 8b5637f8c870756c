# ServerGuard CLI — a Dafny model of its formatting, selection and routing logic

ServerGuard is a command-line tool that prints server status, services, logs,
users, audit results and reports. Its data is literal. What it computes lies
inside its printing code. This project pulls that logic out into functions
and methods that return the printed lines or the computed values:

- **Terminal** (`terminal.dfy`): the eight colour codes of the `Colors`
  class, modelled as a class whose `Disable` method blanks them all. It also
  holds the one-line notices of `print_success`, `print_error`,
  `print_warning` and `print_info`. Functions that build lines take the codes
  in force as a `Palette` value.
- **Builtins** (`builtins.dfy`): the Python semantics the tool relies on:
  `c * n`, `f"{s:<{w}}"`, `"  ".join`, `str.replace` (including an empty
  target), the start index of a slice `xs[i:]`, `int(text)` and `str(n)`.
- **Layout** (`layout.dfy`): `print_header` and `print_table`. This covers
  computed column widths, padding, the two-space separator and the rule
  length. The IndexError cases are modelled as a `raised` flag, and the
  lines printed before the raise are kept.
- **Status** (`status.dfy`): the classifiers for metric status, service
  state, user status and compliance status. It also has the cells they
  colour, the loops that build the coloured rows of the services, users and
  compliance tables, and the system status lines.
- **Logs** (`logs.dfy`): `logs tail`, which selects `entries[-n:]` with `n`
  read by `int()`, and `logs search`, which highlights the query with
  `str.replace`.
- **Audit** (`audit.dfy`): the pass count, the three verdicts with their 70%
  threshold, and the lines of `audit scan`.
- **Cli** (`cli.dfy`): the routing of `main` from (command, subcommand) to a
  handler or a help text, and the exit status: 130 for KeyboardInterrupt and
  1 for any other exception.

Behaviour kept as written:
- `logs tail --lines 0` shows every entry, because `-0 == 0`.
- A negative `--lines` drops entries from the front.
- `--service` selects nothing. `logs tail` echoes it in its header, and
  `logs search` echoes it in its "Searching in:" line.
- `logs search` always prints "Found 3 matches:" and a red ERROR label. It
  does not filter its entries by the query.
- With colours on, the escape codes of a coloured cell count toward its
  width: "active" in green is 15 characters in a 12-wide column, so the
  cells after it shift right. CellPosition therefore applies only to lines
  whose cells fit.
- The rule under a table sums all the given widths, even when there are more
  widths than headers. With no headers and no widths given, the computed width
  list is empty, the length is negative and the rule is empty. With no headers
  but widths given, the rule is `max(Sum(widths) - 2, 0)` characters long.

The floating-point test `passed >= total * 0.7` is modelled as
`10 * passed >= 7 * total`. The two agree for every total below 2^48. The
double nearest 0.7 lies below 0.7, so when `7 * total` is a multiple of 10 the
rounded product is at most that integer. Otherwise `0.7 * total` is at least
0.1 away from every integer, while the error of the double product stays
below 0.03 for totals below 2^48. For larger totals the tests can differ: at
total = 2^52 and passed = 3152519739159347 the double test holds and the
integer test does not.

## Model

| member | source | states |
|---|---|---|
| Builtins.Repeat | serverguard.py:52 | `c * n` is exactly max(n, 0) copies of c, so a negative count gives the empty string |
| Builtins.LeftJustify | serverguard.py:81 | `f"{s:<{w}}"` has length max(\|s\|, w), starts with s and is padded with spaces only; a longer s is kept whole |
| Builtins.JoinCells | serverguard.py:81 | `"  ".join(parts)` starts with the first part and is as long as all parts plus two characters per gap |
| Builtins.JoinCellsAppend | serverguard.py:87 | joining one more part appends the two-space separator and the part |
| Builtins.Replace | serverguard.py:214 | `s.replace(target, replacement)`: occurrences replaced left to right without overlap, and an empty target puts the replacement before every character and at the end; see ReplaceBySelf and ReplaceWithoutOccurrence |
| Builtins.ReplaceBySelf | serverguard.py:214 | `s.replace(q, q) == s` for every q, the empty one included |
| Builtins.ReplaceWithoutOccurrence | serverguard.py:214 | a non-empty target that does not occur leaves the string unchanged |
| Builtins.Strip | serverguard.py:187 | the text `int()` reads has no whitespace at either end |
| Builtins.ParseInt | serverguard.py:187 | `int(text)`: strip the whitespace, read an optional sign and digits with single underscores, at most 4300 of them; None where Python raises ValueError; see StripTrims, ParseShow, ParseRejectsLongNumbers and ParseExamples |
| Builtins.Show | serverguard.py:295 | `str(n)`: a minus sign for a negative n, then the decimal digits without leading zeros; see ParseShow and ShowDigit |
| Builtins.StripTrims | serverguard.py:187 | that text is a slice of the input with only the whitespace `int()` skips before and after it, so stripping removes that whitespace around the number and nothing else |
| Builtins.ParseShow | serverguard.py:187 | `int(str(n)) == n` for every integer of at most 4300 digits, negative ones included |
| Builtins.ParseRejectsLongNumbers | serverguard.py:187 | a string of more than 4300 digits makes `int()` raise ValueError |
| Builtins.ParseExamples | serverguard.py:187 | `int()` reads "3", "10", "0", "-2" and " 1_0 " as numbers and rejects "abc" and "1.5" |
| Terminal.Colors.constructor | serverguard.py:20-28 | the class starts with the eight ANSI escape codes |
| Terminal.Colors.Disable | serverguard.py:30-39 | after `disable()` all eight codes are empty, and a second call changes nothing |
| Terminal.NoticeLine | serverguard.py:55-72 | a message line ends with the text unchanged; without colours it is the symbol, a space and the text |
| Layout.SectionHeader | serverguard.py:49-52 | a blank line, the title between its colour codes, and an underline of exactly \|text\| rule characters |
| Layout.FormatLine | serverguard.py:81 | `"  ".join(f"{cell:<{width}}" ...)` over the cells of a line; see LineLength, FittingLineLength and CellPosition |
| Layout.LineLength | serverguard.py:87 | for n >= 1 cells, one per element of the row, the line is as long as the widths its cells occupy plus 2*(n-1) |
| Layout.FittingLineLength | serverguard.py:81 | for n >= 1 cells that all fit, the line is the sum of the first n widths plus 2*(n-1) |
| Layout.JoinCellsAt | serverguard.py:81 | in a join, part i starts after the earlier parts and their separators |
| Layout.JoinCellsGapAt | serverguard.py:81 | in a join, two spaces follow every part but the last |
| Layout.CellPosition | serverguard.py:87 | when every cell of the line fits its width: cell i sits at column Sum(widths[..i]) + 2i, padded with spaces to its width, and two spaces follow every cell but the last |
| Layout.LongestCell | serverguard.py:78 | `max(len(row[i]) for row in table)` is at least every cell of column i and equal to one of them |
| Layout.AutoWidthUnique | serverguard.py:78 | "two more than the longest cell of the column" determines the width |
| Layout.AutoWidths | serverguard.py:77-78 | computed widths: one per header, each two more than the longest cell in its column; IndexError exactly when a row is shorter than the headers |
| Layout.FirstOverlong | serverguard.py:86-87 | the first row with more cells than there are widths: every earlier row fits |
| Layout.RowLines | serverguard.py:86-88 | one formatted line per row, in row order |
| Layout.Table | serverguard.py:75-88 | everything `print_table` prints and whether it raises IndexError; see TableShape, AutoTableAligned, RuleMatchesHeader, NoHeadersEmptyRule and NoHeadersGivenWidths, and PrintTable, which is proved equal to it |
| Layout.PrintRows | serverguard.py:86-88 | the row loop prints the rows in order and raises at the first row with more cells than widths |
| Layout.PrintTable | serverguard.py:75-88 | `print_table` prints exactly the lines of `Table`, raising in the same cases |
| Layout.TableShape | serverguard.py:75-88 | raises iff the widths cannot be computed, are fewer than the headers, or a row is too long; whenever the widths cover the headers, the first three lines are the blank line, header line and rule; without a raise, 3 + \|rows\| lines with row j's line at 3 + j |
| Layout.RuleMatchesHeader | serverguard.py:81-83 | the rule is sum(widths) + 2*(len(headers)-1) long, the header line's length when there are as many widths as headers, at least one, and every header fits |
| Layout.AutoTableAligned | serverguard.py:77-87 | with computed widths every cell is at least two shorter than its column, and full rows, the header line and the rule have one length |
| Layout.NoHeadersEmptyRule | serverguard.py:77-83 | with no headers and no widths given (the computed list is then empty), the table's third line is the grey and reset codes with no rule characters between them |
| Layout.NoHeadersGivenWidths | serverguard.py:77-83 | with no headers but a non-empty width list given, that list is kept and the printed rule is max(Sum(widths) - 2, 0) rule characters |
| Status.MetricMark | serverguard.py:110-115 | "OK" gives the tick, "WARNING" the warning sign, anything else the cross, and nothing else applies |
| Status.MetricLine | serverguard.py:117 | the coloured mark, a space, the bold name left-justified to 20, a space and the value; see PlainMetricLine |
| Status.PlainMetricLine | serverguard.py:117 | for names of at most 20 characters, without colours: the symbol, the name left-justified in 20 columns, and the value from column 23 |
| Status.SystemStatus | serverguard.py:94-119 | the header, one line per metric in order, and a blank line |
| Status.ActiveTone | serverguard.py:141-144 | "active" is green, every other word grey (the same test colours the user status at lines 239-242) |
| Status.StateCell | serverguard.py:141-144 | the cell is the tone's colour code, the state word unchanged, then the reset code; with ANSI codes it opens with green exactly when the state is "active" |
| Status.ServiceRows | serverguard.py:136-146 | one row per service, in order, with only the state coloured |
| Status.UserStatusCell | serverguard.py:239-242 | the colour code, a tick for "active" and a warning sign otherwise, a space, the status word unchanged, then the reset code; with ANSI codes it opens with green exactly when the status is "active" |
| Status.UserRows | serverguard.py:236-244 | one row per user, in order, with only the status coloured |
| Status.ComplianceMark | serverguard.py:323-328 | "PASS" gives the tick, "WARN" the warning sign, anything else the failure cross |
| Status.ComplianceCell | serverguard.py:323-328 | the mark's colour code, its symbol, a space, the status word unchanged, then the reset code; with ANSI codes it opens with green exactly for "PASS", yellow exactly for "WARN" and red for every other status |
| Status.PolicyRows | serverguard.py:320-330 | one row per policy, in order, with only the status coloured |
| Status.RowsOfWidthPrintInFull | serverguard.py:75-88 | with as many widths as headers and cells in every row, the table never raises and prints 3 + \|rows\| lines |
| Status.CommandTablesPrintInFull | serverguard.py:148 | the services, users and compliance tables (the `print_table` calls at lines 148, 246 and 332) print in full for any data and colours |
| Status.SessionWidths | serverguard.py:254-260 | the sessions table is the one with computed widths, and they are 8, 7, 15, 7 and 8 |
| Logs.Tail | serverguard.py:187 | `entries[-n:]`: the last n in order for 1 <= n <= len, everything for n >= len and for n == 0, the first -n dropped for n < 0 |
| Logs.LevelOf | serverguard.py:188-193 | "INFO" and "WARNING" have their own label, anything else is an ERROR |
| Logs.LogLine | serverguard.py:195 | the grey timestamp, the level label, the cyan bracketed service and the message; see LogLineLayout and PlainLogLine |
| Logs.LogLineLayout | serverguard.py:187-195 | a log line opens with the grey timestamp and a space, then the label `LevelOf` selects for the entry's level, and ends with the message unchanged |
| Logs.PlainLogLine | serverguard.py:187-195 | without colours a log line is the timestamp, INFO, WARN or ERROR as `LevelOf` decides, the bracketed service and the message |
| Logs.ShowEntries | serverguard.py:187-195 | the loop prints one log line per selected entry, in order |
| Logs.TailEntries | serverguard.py:187-195 | raises iff `int(lines)` fails; otherwise one log line per entry of `entries[-n:]`, in order |
| Logs.LogsTail | serverguard.py:174-196 | header and blank line first; raises iff `int(lines)` fails; otherwise one line per entry of the tail, in order, then a blank line |
| Logs.ShippedTail | serverguard.py:178-187 | on the shipped log, 3 gives entries 3-5; 10 and 0 give all five; -2 drops two; "abc" raises |
| Logs.Highlight | serverguard.py:214 | the message with every occurrence of the query wrapped in bold yellow and reset; see HighlightWithoutColours and HighlightWithoutMatch |
| Logs.SearchLine | serverguard.py:215-216 | the grey timestamp, a red ERROR, the cyan bracketed service and the highlighted message; see PlainSearchLine |
| Logs.HighlightWithoutColours | serverguard.py:214 | with colours disabled, highlighting returns every message unchanged |
| Logs.HighlightWithoutMatch | serverguard.py:214 | a message without the non-empty query is not changed, whatever the colours |
| Logs.PlainSearchLine | serverguard.py:213-216 | without colours a search line is timestamp, "ERROR", the bracketed service and the message |
| Logs.LogsSearch | serverguard.py:199-217 | header, two info lines, the fixed banner, one highlighted line per match, and a blank line |
| Audit.CountPassed | serverguard.py:286 | 0 <= passed <= total; passed == total iff every check passes; passed == 0 iff none does |
| Audit.CountPassedAppend | serverguard.py:286 | the pass count of two lists together is the sum of their counts |
| Audit.FixingACheck | serverguard.py:286 | turning one failing check into a passing one adds exactly one pass |
| Audit.Rate | serverguard.py:297-302 | EXCELLENT iff all pass; GOOD iff not all but 10*passed >= 7*total; NEEDS ATTENTION otherwise; exactly one applies |
| Audit.RateMonotone | serverguard.py:297-302 | more passes out of the same total never give a worse verdict |
| Audit.RateExamples | serverguard.py:297-302 | 7/7 EXCELLENT, 5/7 GOOD, 4/7 NEEDS ATTENTION, 7/10 GOOD (70% inclusive), 6/10 NEEDS ATTENTION, 0/0 EXCELLENT |
| Audit.VerdictLine | serverguard.py:297-302 | the success, warning or error notice for EXCELLENT, GOOD or NEEDS ATTENTION; see AuditScan |
| Audit.CheckLine | serverguard.py:289-293 | a success notice for a passing check and an error notice for a failing one; see AuditScan |
| Audit.ResultsLine | serverguard.py:295 | "Results: passed/total checks passed" with the label in bold; see ShippedAudit |
| Audit.AuditScan | serverguard.py:269-303 | the opening lines, one line per check in order, then the count, the verdict and a blank line |
| Audit.ShippedCount | serverguard.py:276-286 | the shipped checks have 5 passes |
| Audit.ShippedAudit | serverguard.py:276-302 | on the shipped checks the line reads "Results: 5/7 checks passed" and the verdict is GOOD |
| Cli.Route | serverguard.py:435-479 | no command gives the main help; a handler runs only for its own (command, subcommand); any other subcommand gives that command's help |
| Cli.RouteReachesEveryHandler | serverguard.py:441-479 | every handler is reached by its own command and subcommand |
| Cli.UnknownSubcommandGivesHelp | serverguard.py:448-479 | a missing or unknown subcommand gives that command's help |
| Cli.ExitCode | serverguard.py:435-486 | 0 for help and normal runs, 130 for an interrupt, 1 exactly when `logs tail` gets a non-integer `--lines` |
| Cli.Run | serverguard.py:432-486 | `--no-color` blanks the colours before routing; the exit status comes from running the handler |
| Cli.NonIntegerLinesExitsOne | serverguard.py:187 | `logs tail --lines abc` exits with 1, and the default `--lines 10` exits with 0 |

## Left out

- Printing itself is left out. Lines are returned as strings, and terminal display width is not modelled. The `\n` characters written in the source's own strings are split into separate lines. A `\n` inside a value the user supplies (the search query, `--service`) or inside a table cell is kept inside its line, so the terminal shows more lines than the model returns.
- The fixed widths at lines 148, 246 and 332 are applied to cells that hold escape codes. The model keeps those codes in the cell, so its lengths count them, as Python's do.
- `argparse` is left out. Parsing, the `--version` action, the help texts and argparse's own exit status for bad arguments are not modelled; the model starts from the parsed (command, subcommand) values.
- `cmd_system_resources` and `cmd_report_generate` are not modelled beyond routing. They print literal bars and text, and the report name depends on `datetime.now()`.
- `cmd_users_sessions` is modelled only through its computed table widths. The rest of it is literal output.
- Cli.Run: KeyboardInterrupt is a parameter of the routed part only. An interrupt while the main help prints is outside the `try` and is not modelled.
- Cli.Run: `sys.exit` is the returned exit status. The error messages printed before exiting are not modelled.
- Cli.ExitCode: the only exception it counts is `int()` rejecting `--lines`. Failures of `print` itself, such as a broken pipe, are not modelled.
- Builtins.ParseInt: non-ASCII decimal digits, which Python's `int()` also accepts, are not modelled. The whitespace it skips is the ASCII space and `\t` to `\r`, plus the non-ASCII characters `str.isspace` accepts. U+001C to U+001F are not skipped, as in CPython. The limit of 4300 digits is the default of Python 3.11 and later; earlier versions have no limit.
- Builtins.Show: `str()` of an integer of more than 4300 digits raises ValueError from Python 3.11 on. The model prints it, and ParseShow is stated only for integers `str()` accepts. The tool only prints small counts.
- A negative width in the format specification is not modelled. Python raises ValueError for it, but every width the tool uses is a non-negative literal or a computed width of at least 2, so widths are natural numbers.
- Audit.Rate: floating point is not modelled. The threshold is the integer test described above, which agrees with the double comparison for totals below 2^48 and can differ beyond that.

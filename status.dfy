/**
 * The status classifiers of the system, users and audit commands, the
 * cells they colour, and the loops that build the coloured table rows.
 * Each classifier sends every input string to exactly one display class.
 */
module Status {
  import opened Wrappers
  import opened Builtins
  import opened Terminal
  import opened Layout

  /** A symbol in its colour: green tick, yellow warning sign, red cross. */
  datatype Mark = Ok | Warn | Fail

  function MarkColour(p: Palette, m: Mark): string
  {
    match m
    case Ok => p.green
    case Warn => p.yellow
    case Fail => p.red
  }

  function MarkSymbol(m: Mark): char
  {
    match m
    case Ok => SymbolOk
    case Warn => SymbolWarning
    case Fail => SymbolError
  }

  /** A plain colour for a word: green, or grey. */
  datatype Tone = Green | Grey

  function ToneColour(p: Palette, t: Tone): string
  {
    match t
    case Green => p.green
    case Grey => p.gray
  }

  // ---------------------------------------------------------------------
  // system status

  datatype Metric = Metric(name: string, value: string, status: string)

  /** cmd_system_status: "OK" is a tick, "WARNING" a warning sign, anything else a cross. */
  function MetricMark(status: string): (m: Mark)
    ensures m == Ok <==> status == "OK"
    ensures m == Warn <==> status == "WARNING"
    ensures m == Fail <==> status != "OK" && status != "WARNING"
  {
    if status == "OK" then Ok else if status == "WARNING" then Warn else Fail
  }

  /** The coloured symbol, a space, the name in bold padded to 20 characters, a space and the value. */
  function MetricLine(p: Palette, metric: Metric): string
  {
    var m := MetricMark(metric.status);
    MarkColour(p, m) + [MarkSymbol(m)] + p.reset + " " + p.bold + LeftJustify(metric.name, 20) + p.reset + " " + metric.value
  }

  /**
   * Without colours a metric line is the symbol, a space, the name
   * left-justified in 20 columns, a space and the value, which therefore
   * starts in column 23 whenever the name fits.
   */
  lemma PlainMetricLine(metric: Metric)
    requires |metric.name| <= 20
    ensures var line := MetricLine(Plain, metric);
      && |line| == 23 + |metric.value|
      && line[0] == MarkSymbol(MetricMark(metric.status)) && line[1] == ' '
      && line[2..2 + |metric.name|] == metric.name
      && (forall k :: 2 + |metric.name| <= k < 22 ==> line[k] == ' ')
      && line[23..] == metric.value
  {
    var line := MetricLine(Plain, metric);
    var padded := LeftJustify(metric.name, 20);
    assert line == [MarkSymbol(MetricMark(metric.status))] + " " + padded + " " + metric.value;
    assert line[2..22] == padded;
  }

  /** cmd_system_status: the header, one line per metric in order, and a blank line. */
  method SystemStatus(p: Palette, metrics: seq<Metric>) returns (lines: seq<string>)
    ensures |lines| == |metrics| + 4
    ensures lines[..3] == SectionHeader(p, "SYSTEM STATUS") && lines[|lines| - 1] == ""
    ensures forall i :: 0 <= i < |metrics| ==> lines[3 + i] == MetricLine(p, metrics[i])
  {
    lines := SectionHeader(p, "SYSTEM STATUS");
    var i := 0;
    while i < |metrics|
      invariant 0 <= i <= |metrics|
      invariant |lines| == 3 + i
      invariant lines[..3] == SectionHeader(p, "SYSTEM STATUS")
      invariant forall j :: 0 <= j < i ==> lines[3 + j] == MetricLine(p, metrics[j])
    {
      lines := lines + [MetricLine(p, metrics[i])];
      i := i + 1;
    }
    lines := lines + [""];
  }

  // ---------------------------------------------------------------------
  // system services

  datatype Service = Service(name: string, state: string, status: string, uptime: string)

  /**
   * cmd_system_services and cmd_users_list: the word "active" is green,
   * every other word grey.
   */
  function ActiveTone(word: string): (t: Tone)
    ensures t == Green <==> word == "active"
    ensures t == Grey <==> word != "active"
  {
    if word == "active" then Green else Grey
  }

  /** The state word, unchanged, between its colour and the reset code. */
  function StateCell(p: Palette, state: string): (cell: string)
    ensures var c := ToneColour(p, ActiveTone(state));
      && |cell| == |c| + |state| + |p.reset|
      && cell[..|c|] == c
      && cell[|c|..|c| + |state|] == state
      && cell[|c| + |state|..] == p.reset
    ensures p == Ansi ==> (cell[..|Ansi.green|] == Ansi.green <==> state == "active")
    ensures p == Plain ==> cell == state
  {
    var c := ToneColour(p, ActiveTone(state));
    assert Ansi.gray != Ansi.green by { assert Ansi.gray[3] != Ansi.green[3]; }
    c + state + p.reset
  }

  /** One row of the services table: the state coloured, the other columns as they are. */
  function ServiceRow(p: Palette, s: Service): seq<string>
  {
    [s.name, StateCell(p, s.state), s.status, s.uptime]
  }

  /** The loop of cmd_system_services that builds the coloured rows. */
  method ServiceRows(p: Palette, services: seq<Service>) returns (rows: seq<seq<string>>)
    ensures |rows| == |services|
    ensures forall i :: 0 <= i < |services| ==> rows[i] == ServiceRow(p, services[i])
  {
    rows := [];
    var i := 0;
    while i < |services|
      invariant 0 <= i <= |services|
      invariant |rows| == i
      invariant forall j :: 0 <= j < i ==> rows[j] == ServiceRow(p, services[j])
    {
      rows := rows + [ServiceRow(p, services[i])];
      i := i + 1;
    }
  }

  const ServiceHeaders := ["SERVICE", "STATE", "STATUS", "UPTIME"]
  const ServiceWidths: seq<nat> := [20, 12, 12, 15]

  // ---------------------------------------------------------------------
  // users list

  datatype User = User(name: string, uid: string, groups: string, lastLogin: string, status: string)

  /** The tick for the green tone, the warning sign for the grey one. */
  function ToneSymbol(t: Tone): char
  {
    if t == Green then SymbolOk else SymbolWarning
  }

  /**
   * cmd_users_list: the symbol, a space and the status word, between the
   * colour and the reset code; "active" is green with a tick, every other
   * status grey with a warning sign.
   */
  function UserStatusCell(p: Palette, status: string): (cell: string)
    ensures var c := ToneColour(p, ActiveTone(status));
      && |cell| == |c| + 2 + |status| + |p.reset|
      && cell[..|c|] == c
      && cell[|c|] == (if status == "active" then SymbolOk else SymbolWarning)
      && cell[|c| + 1] == ' '
      && cell[|c| + 2..|c| + 2 + |status|] == status
      && cell[|c| + 2 + |status|..] == p.reset
    ensures p == Ansi ==> (cell[..|Ansi.green|] == Ansi.green <==> status == "active")
    ensures p == Plain ==> cell == [if status == "active" then SymbolOk else SymbolWarning, ' '] + status
  {
    var t := ActiveTone(status);
    var c := ToneColour(p, t);
    assert Ansi.gray != Ansi.green by { assert Ansi.gray[3] != Ansi.green[3]; }
    c + [ToneSymbol(t), ' '] + status + p.reset
  }

  function UserRow(p: Palette, u: User): seq<string>
  {
    [u.name, u.uid, u.groups, u.lastLogin, UserStatusCell(p, u.status)]
  }

  /** The loop of cmd_users_list that builds the coloured rows. */
  method UserRows(p: Palette, users: seq<User>) returns (rows: seq<seq<string>>)
    ensures |rows| == |users|
    ensures forall i :: 0 <= i < |users| ==> rows[i] == UserRow(p, users[i])
  {
    rows := [];
    var i := 0;
    while i < |users|
      invariant 0 <= i <= |users|
      invariant |rows| == i
      invariant forall j :: 0 <= j < i ==> rows[j] == UserRow(p, users[j])
    {
      rows := rows + [UserRow(p, users[i])];
      i := i + 1;
    }
  }

  const UserHeaders := ["USERNAME", "UID", "GROUPS", "LAST LOGIN", "STATUS"]
  const UserWidths: seq<nat> := [15, 8, 20, 20, 15]

  // ---------------------------------------------------------------------
  // audit compliance

  datatype Policy = Policy(name: string, status: string, details: string)

  /** cmd_audit_compliance: "PASS" and "WARN" have their own marks; anything else is shown as a failure. */
  function ComplianceMark(status: string): (m: Mark)
    ensures m == Ok <==> status == "PASS"
    ensures m == Warn <==> status == "WARN"
    ensures m == Fail <==> status != "PASS" && status != "WARN"
  {
    if status == "PASS" then Ok else if status == "WARN" then Warn else Fail
  }

  /**
   * The symbol, a space and the status word, between the colour and the
   * reset code: green tick for "PASS", yellow warning sign for "WARN", red
   * cross otherwise.
   */
  function ComplianceCell(p: Palette, status: string): (cell: string)
    ensures var c := MarkColour(p, ComplianceMark(status));
      && |cell| == |c| + 2 + |status| + |p.reset|
      && cell[..|c|] == c
      && cell[|c|] == MarkSymbol(ComplianceMark(status))
      && cell[|c| + 1] == ' '
      && cell[|c| + 2..|c| + 2 + |status|] == status
      && cell[|c| + 2 + |status|..] == p.reset
    ensures p == Ansi ==> (cell[..|Ansi.green|] == Ansi.green <==> status == "PASS")
    ensures p == Ansi ==> (cell[..|Ansi.yellow|] == Ansi.yellow <==> status == "WARN")
    ensures p == Ansi ==> (cell[..|Ansi.red|] == Ansi.red <==> status != "PASS" && status != "WARN")
    ensures p == Plain ==> cell == [MarkSymbol(ComplianceMark(status)), ' '] + status
  {
    var m := ComplianceMark(status);
    var c := MarkColour(p, m);
    assert Ansi.green[3] == '2' && Ansi.yellow[3] == '3' && Ansi.red[3] == '1';
    c + [MarkSymbol(m), ' '] + status + p.reset
  }

  function PolicyRow(p: Palette, policy: Policy): seq<string>
  {
    [policy.name, ComplianceCell(p, policy.status), policy.details]
  }

  /** The loop of cmd_audit_compliance that builds the coloured rows. */
  method PolicyRows(p: Palette, policies: seq<Policy>) returns (rows: seq<seq<string>>)
    ensures |rows| == |policies|
    ensures forall i :: 0 <= i < |policies| ==> rows[i] == PolicyRow(p, policies[i])
  {
    rows := [];
    var i := 0;
    while i < |policies|
      invariant 0 <= i <= |policies|
      invariant |rows| == i
      invariant forall j :: 0 <= j < i ==> rows[j] == PolicyRow(p, policies[j])
    {
      rows := rows + [PolicyRow(p, policies[i])];
      i := i + 1;
    }
  }

  const PolicyHeaders := ["POLICY", "STATUS", "DETAILS"]
  const PolicyWidths: seq<nat> := [20, 15, 30]

  // ---------------------------------------------------------------------
  // The tables as the commands print them

  /** Rows that all have exactly as many cells as there are widths print in full. */
  lemma RowsOfWidthPrintInFull(p: Palette, headers: seq<string>, rows: seq<seq<string>>, widths: seq<nat>)
    requires widths != [] && |headers| == |widths|
    requires forall j :: 0 <= j < |rows| ==> |rows[j]| == |widths|
    ensures var out := Table(p, headers, rows, Some(widths));
      !out.raised && |out.lines| == 3 + |rows|
  {
    TableShape(p, headers, rows, Some(widths));
  }

  /**
   * The services, users and compliance tables, whose rows come from the
   * loops above, print in full whatever their data and colours.
   */
  lemma CommandTablesPrintInFull(p: Palette, srows: seq<seq<string>>, urows: seq<seq<string>>, prows: seq<seq<string>>)
    requires forall j :: 0 <= j < |srows| ==> exists s :: srows[j] == ServiceRow(p, s)
    requires forall j :: 0 <= j < |urows| ==> exists u :: urows[j] == UserRow(p, u)
    requires forall j :: 0 <= j < |prows| ==> exists q :: prows[j] == PolicyRow(p, q)
    ensures var out := Table(p, ServiceHeaders, srows, Some(ServiceWidths)); !out.raised && |out.lines| == 3 + |srows|
    ensures var out := Table(p, UserHeaders, urows, Some(UserWidths)); !out.raised && |out.lines| == 3 + |urows|
    ensures var out := Table(p, PolicyHeaders, prows, Some(PolicyWidths)); !out.raised && |out.lines| == 3 + |prows|
  {
    RowsOfWidthPrintInFull(p, ServiceHeaders, srows, ServiceWidths);
    RowsOfWidthPrintInFull(p, UserHeaders, urows, UserWidths);
    RowsOfWidthPrintInFull(p, PolicyHeaders, prows, PolicyWidths);
  }

  // ---------------------------------------------------------------------
  // users sessions: the one table printed with computed widths

  const SessionHeaders := ["USER", "TTY", "FROM", "LOGIN", "IDLE"]
  const Sessions := [
    ["admin", "pts/0", "192.168.1.100", "08:30", "6h 2m"],
    ["deploy", "pts/1", "10.0.0.50", "13:15", "1h 17m"]]

  const SessionWidthsExpected: seq<nat> := [8, 7, 15, 7, 8]

  lemma SessionColumn(i: nat)
    requires i < 5
    ensures IsAutoWidth(SessionWidthsExpected[i], [SessionHeaders] + Sessions, i)
  {
    var table := [SessionHeaders] + Sessions;
    assert table == [SessionHeaders, Sessions[0], Sessions[1]];
    assert forall r :: r in table ==> r == table[0] || r == table[1] || r == table[2];
    if i == 0 { assert |table[1][0]| + 2 == 7 && |table[2][0]| + 2 == 8; }
    if i == 1 { assert |table[1][1]| + 2 == 7; }
    if i == 2 { assert |table[1][2]| + 2 == 15; }
    if i == 3 { assert |table[1][3]| + 2 == 7; }
    if i == 4 { assert |table[2][4]| + 2 == 8; }
  }

  /** The session table's columns are two wider than their longest cell: 8, 7, 15, 7 and 8. */
  lemma SessionWidths()
    ensures AutoWidths(SessionHeaders, Sessions) == Some(SessionWidthsExpected)
  {
    var table := [SessionHeaders] + Sessions;
    assert forall r :: r in Sessions ==> |r| == 5;
    assert AutoWidths(SessionHeaders, Sessions).Some?;
    var ws := AutoWidths(SessionHeaders, Sessions).value;
    forall i | 0 <= i < 5
      ensures ws[i] == SessionWidthsExpected[i]
    {
      SessionColumn(i);
      AutoWidthUnique(ws[i], SessionWidthsExpected[i], table, i);
    }
    assert ws == SessionWidthsExpected;
  }
}

/**
 * The security audit (`audit scan`): count the checks that pass and rate
 * the count against the number of checks. The source compares
 * `passed >= total * 0.7` in floating point; for totals below 2^48 this is
 * the integer test `10 * passed >= 7 * total` used here.
 */
module Audit {
  import opened Builtins
  import opened Terminal
  import opened Layout

  datatype Check = Check(name: string, passed: bool)

  /** `sum(1 for _, status in checks if status)` */
  function CountPassed(checks: seq<Check>): (n: nat)
    ensures n <= |checks|
    ensures n == |checks| <==> forall i :: 0 <= i < |checks| ==> checks[i].passed
    ensures n == 0 <==> forall i :: 0 <= i < |checks| ==> !checks[i].passed
  {
    if checks == [] then 0
    else (if checks[0].passed then 1 else 0) + CountPassed(checks[1..])
  }

  /** Counting the passes of two lists of checks one after the other adds up. */
  lemma {:induction false} CountPassedAppend(a: seq<Check>, b: seq<Check>)
    ensures CountPassed(a + b) == CountPassed(a) + CountPassed(b)
  {
    if a == [] {
      assert a + b == b;
    } else {
      assert (a + b)[0] == a[0];
      assert (a + b)[1..] == a[1..] + b;
      CountPassedAppend(a[1..], b);
    }
  }

  /** Turning one failing check into a passing one adds exactly one pass. */
  lemma FixingACheck(checks: seq<Check>, i: nat)
    requires i < |checks| && !checks[i].passed
    ensures CountPassed(checks[i := checks[i].(passed := true)]) == CountPassed(checks) + 1
  {
    var fixed := checks[i := checks[i].(passed := true)];
    assert checks == checks[..i] + [checks[i]] + checks[i + 1..];
    assert fixed == checks[..i] + [fixed[i]] + checks[i + 1..];
    CountPassedAppend(checks[..i] + [checks[i]], checks[i + 1..]);
    CountPassedAppend(checks[..i], [checks[i]]);
    CountPassedAppend(checks[..i] + [fixed[i]], checks[i + 1..]);
    CountPassedAppend(checks[..i], [fixed[i]]);
  }

  datatype Verdict = Excellent | Good | NeedsAttention

  /**
   * The overall verdict: EXCELLENT when every check passed, GOOD when not
   * all did but at least 70% did, NEEDS ATTENTION otherwise. Exactly one
   * applies.
   */
  function Rate(passed: int, total: int): (v: Verdict)
    ensures v == Excellent <==> passed == total
    ensures v == Good <==> passed != total && 10 * passed >= 7 * total
    ensures v == NeedsAttention <==> passed != total && 10 * passed < 7 * total
  {
    if passed == total then Excellent
    else if 10 * passed >= 7 * total then Good
    else NeedsAttention
  }

  function Rank(v: Verdict): nat
  {
    match v
    case NeedsAttention => 0
    case Good => 1
    case Excellent => 2
  }

  /** More passing checks out of the same total never give a worse verdict. */
  lemma RateMonotone(a: int, b: int, total: int)
    requires 0 <= a <= b <= total
    ensures Rank(Rate(a, total)) <= Rank(Rate(b, total))
  {
  }

  /** The boundary cases of the threshold: 7/7, 5/7, 4/7, exactly 70%, and an empty audit. */
  lemma RateExamples()
    ensures Rate(7, 7) == Excellent && Rate(5, 7) == Good && Rate(4, 7) == NeedsAttention
    ensures Rate(7, 10) == Good && Rate(6, 10) == NeedsAttention
    ensures Rate(0, 0) == Excellent
  {
  }

  /** The line that states the verdict. */
  function VerdictLine(p: Palette, v: Verdict): string
  {
    match v
    case Excellent => NoticeLine(p, Success, "System security: EXCELLENT")
    case Good => NoticeLine(p, Caution, "System security: GOOD (review warnings)")
    case NeedsAttention => NoticeLine(p, Failure, "System security: NEEDS ATTENTION")
  }

  /** A tick for a passing check, a cross for a failing one, then its name. */
  function CheckLine(p: Palette, c: Check): string
  {
    NoticeLine(p, if c.passed then Success else Failure, c.name)
  }

  function ResultsLine(p: Palette, passed: nat, total: nat): string
  {
    p.bold + "Results:" + p.reset + " " + Show(passed) + "/" + Show(total) + " checks passed"
  }

  /**
   * cmd_audit_scan: the header and the opening lines, one line per check in
   * order, then the count, the verdict and a blank line.
   */
  method AuditScan(p: Palette, checks: seq<Check>) returns (lines: seq<string>, verdict: Verdict)
    ensures verdict == Rate(CountPassed(checks), |checks|)
    ensures |lines| == |checks| + 10
    ensures lines[..6] == SectionHeader(p, "SECURITY AUDIT")
      + [NoticeLine(p, Information, "Scanning system configuration..."), "", p.bold + "Security Checks:" + p.reset]
    ensures forall i :: 0 <= i < |checks| ==> lines[6 + i] == CheckLine(p, checks[i])
    ensures lines[6 + |checks|..] == ["", ResultsLine(p, CountPassed(checks), |checks|), VerdictLine(p, verdict), ""]
  {
    var passed := CountPassed(checks);
    var total := |checks|;
    var opening := SectionHeader(p, "SECURITY AUDIT")
      + [NoticeLine(p, Information, "Scanning system configuration..."), "", p.bold + "Security Checks:" + p.reset];
    lines := opening;
    var i := 0;
    while i < |checks|
      invariant 0 <= i <= |checks|
      invariant |lines| == 6 + i
      invariant lines[..6] == opening
      invariant forall j :: 0 <= j < i ==> lines[6 + j] == CheckLine(p, checks[j])
    {
      lines := lines + [CheckLine(p, checks[i])];
      i := i + 1;
    }
    verdict := Rate(passed, total);
    lines := lines + ["", ResultsLine(p, passed, total), VerdictLine(p, verdict), ""];
  }

  /** The seven checks `audit scan` reports on. */
  const ShippedChecks := [
    Check("SSH root login disabled", true),
    Check("Firewall enabled", false),
    Check("Automatic updates configured", true),
    Check("Password policy enforced", true),
    Check("Unnecessary services disabled", true),
    Check("SSL certificates valid", true),
    Check("File permissions secure", false)]

  /** On the shipped checks 5 of 7 pass, reported as "5/7" and rated GOOD. */
  lemma ShippedAudit()
    ensures CountPassed(ShippedChecks) == 5
    ensures Rate(CountPassed(ShippedChecks), |ShippedChecks|) == Good
    ensures ResultsLine(Plain, CountPassed(ShippedChecks), |ShippedChecks|) == "Results: 5/7 checks passed"
  {
    ShippedCount();
    ShowDigit(5);
    ShowDigit(7);
  }

  lemma ShippedCount()
    ensures CountPassed(ShippedChecks) == 5
  {
    var s := ShippedChecks;
    assert CountPassed(s[7..]) == 0;
    assert s[6..][1..] == s[7..] && CountPassed(s[6..]) == 0;
    assert s[5..][1..] == s[6..] && CountPassed(s[5..]) == 1;
    assert s[4..][1..] == s[5..] && CountPassed(s[4..]) == 2;
    assert s[3..][1..] == s[4..] && CountPassed(s[3..]) == 3;
    assert s[2..][1..] == s[3..] && CountPassed(s[2..]) == 4;
    assert s[1..][1..] == s[2..] && CountPassed(s[1..]) == 4;
    assert s[0..] == s && CountPassed(s) == 5;
  }
}

/**
 * The entry point of the tool: after argument parsing, `--no-color`
 * disables the colours, a missing command prints the main help, and a
 * (command, subcommand) pair is routed to its handler or to that command's
 * help. Inside the routing, KeyboardInterrupt ends the run with exit code
 * 130 and any other exception with exit code 1.
 */
module Cli {
  import opened Wrappers
  import opened Builtins
  import opened Terminal
  import L = Logs

  /** The commands argument parsing accepts. */
  datatype Command = System | Logs | Users | Audit | Report

  /** The command handlers. */
  datatype Handler =
    | SystemStatus | SystemServices | SystemResources
    | LogsTail | LogsSearch
    | UsersList | UsersSessions
    | AuditScan | AuditCompliance
    | ReportGenerate

  /** The command a handler belongs to. */
  function CommandOf(h: Handler): Command
  {
    match h
    case SystemStatus | SystemServices | SystemResources => System
    case LogsTail | LogsSearch => Logs
    case UsersList | UsersSessions => Users
    case AuditScan | AuditCompliance => Audit
    case ReportGenerate => Report
  }

  /** The subcommand that selects a handler. */
  function NameOf(h: Handler): string
  {
    match h
    case SystemStatus => "status"
    case SystemServices => "services"
    case SystemResources => "resources"
    case LogsTail => "tail"
    case LogsSearch => "search"
    case UsersList => "list"
    case UsersSessions => "sessions"
    case AuditScan => "scan"
    case AuditCompliance => "compliance"
    case ReportGenerate => "generate"
  }

  /** What the entry point does: the main help, one command's help, or a handler. */
  datatype Action = MainHelp | CommandHelp(command: Command) | Invoke(handler: Handler)

  /**
   * The routing of the entry point. No command gives the main help and
   * nothing else; a handler runs only for its own command and subcommand;
   * a command whose subcommand names none of its handlers, or is missing,
   * gives that command's help.
   */
  function Route(command: Option<Command>, subcommand: Option<string>): (a: Action)
    ensures command.None? <==> a == MainHelp
    ensures a.Invoke? ==> command == Some(CommandOf(a.handler)) && subcommand == Some(NameOf(a.handler))
    ensures a.CommandHelp? ==>
      (command == Some(a.command) && forall h :: CommandOf(h) == a.command ==> subcommand != Some(NameOf(h)))
  {
    if command.None? then MainHelp
    else
      var sub := subcommand;
      match command.value
      case System =>
        if sub == Some("status") then Invoke(SystemStatus)
        else if sub == Some("services") then Invoke(SystemServices)
        else if sub == Some("resources") then Invoke(SystemResources)
        else CommandHelp(System)
      case Logs =>
        if sub == Some("tail") then Invoke(LogsTail)
        else if sub == Some("search") then Invoke(LogsSearch)
        else CommandHelp(Logs)
      case Users =>
        if sub == Some("list") then Invoke(UsersList)
        else if sub == Some("sessions") then Invoke(UsersSessions)
        else CommandHelp(Users)
      case Audit =>
        if sub == Some("scan") then Invoke(AuditScan)
        else if sub == Some("compliance") then Invoke(AuditCompliance)
        else CommandHelp(Audit)
      case Report =>
        if sub == Some("generate") then Invoke(ReportGenerate)
        else CommandHelp(Report)
  }

  /** Every handler is reached by its own command and subcommand. */
  lemma RouteReachesEveryHandler(h: Handler)
    ensures Route(Some(CommandOf(h)), Some(NameOf(h))) == Invoke(h)
  {
  }

  /** A command with a missing subcommand, or one naming none of its handlers, prints that command's help. */
  lemma UnknownSubcommandGivesHelp(c: Command, subcommand: Option<string>)
    requires forall h :: CommandOf(h) == c ==> subcommand != Some(NameOf(h))
    ensures Route(Some(c), subcommand) == CommandHelp(c)
  {
  }

  /** The parsed arguments the entry point looks at. */
  datatype Args = Args(noColor: bool, command: Option<Command>, subcommand: Option<string>, lines: string)

  /** The value argument parsing gives `--lines` when it is not given. */
  const DefaultLines := "10"

  /**
   * The process exit status. 0 for the main help and for a run that ends
   * normally; 130 for KeyboardInterrupt inside the routing; 1 for any other
   * exception there, and the only one the handlers raise is `int()`
   * rejecting the `--lines` of `logs tail`.
   */
  function ExitCode(args: Args, interrupted: bool): (code: int)
    ensures args.command.None? ==> code == 0
    ensures args.command.Some? && interrupted ==> code == 130
    ensures args.command.Some? && !interrupted ==>
      (code == 1 <==> Route(args.command, args.subcommand) == Invoke(LogsTail) && ParseInt(args.lines).None?)
    ensures code == 0 || code == 1 || code == 130
  {
    if args.command.None? then 0
    else if interrupted then 130
    else if Route(args.command, args.subcommand) == Invoke(LogsTail) && ParseInt(args.lines).None? then 1
    else 0
  }

  /**
   * The entry point with the shipped log: colours are disabled first when
   * asked for, then the action is routed and `logs tail` run; `interrupted`
   * stands for a KeyboardInterrupt arriving while the routed action runs.
   */
  method Run(colors: Colors, args: Args, interrupted: bool) returns (action: Action, code: int)
    modifies colors
    ensures args.noColor ==> colors.Codes() == Plain
    ensures !args.noColor ==> colors.Codes() == old(colors.Codes())
    ensures action == Route(args.command, args.subcommand)
    ensures code == ExitCode(args, interrupted)
  {
    if args.noColor {
      colors.Disable();
    }
    action := Route(args.command, args.subcommand);
    if args.command.None? {
      return action, 0;
    }
    if interrupted {
      return action, 130;
    }
    code := 0;
    if action == Invoke(LogsTail) {
      var service: Option<string> := None;
      var lines, raised := L.LogsTail(colors.Codes(), service, args.lines, L.ShippedLog);
      if raised {
        code := 1;
      }
    }
  }

  /** `serverguard logs tail --lines abc` exits with status 1; the default `--lines` does not. */
  lemma NonIntegerLinesExitsOne(noColor: bool)
    ensures ExitCode(Args(noColor, Some(Logs), Some("tail"), "abc"), false) == 1
    ensures ExitCode(Args(noColor, Some(Logs), Some("tail"), DefaultLines), false) == 0
  {
    L.ShippedTail();
  }
}

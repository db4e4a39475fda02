/**
 * src/bin/albino.rs: the `albino` front end. It takes the first argument as a
 * subcommand, answers `help` and `version` itself, and otherwise runs the
 * executable `albino-<subcommand>` with the remaining arguments, passing the
 * child's failure on as its own exit status.
 */
module Albino {
  import opened Wrappers
  import opened Os

  /** `albino::version()` (src/albino/lib.rs) and the whitebase version the router prints. */
  const Version := "0.1.0-pre"
  const WhitebaseVersion := "0.1.1"

  /** How a child process ended. */
  datatype ProcessExit = ExitStatus(code: int) | ExitSignal(signal: int)

  /** The router's environment: argv, the platform's executable suffix, and the OS calls it makes. */
  datatype Host = Host(
    args: seq<string>,
    exeSuffix: string,
    selfExePath: Option<string>,
    join: (string, string) -> string,
    pathExists: string -> bool,
    status: (string, seq<string>) -> Result<ProcessExit, IoError>)

  /** What `process` computes: the subcommand (`--help` if none) and the arguments after it. */
  function ProcessArgs(args: seq<string>): (r: (string, seq<string>))
    requires |args| >= 1
    ensures |args| >= 2 ==> [r.0] + r.1 == args[1..]
    ensures |args| == 1 ==> r == ("--help", [])
  {
    if |args| >= 2 then (args[1], args[2..]) else ("--help", [])
  }

  /** `process`: copies argv without the program name and shifts the head off. */
  method Process(args: seq<string>) returns (head: string, rest: seq<string>)
    requires |args| >= 1
    ensures (head, rest) == ProcessArgs(args)
  {
    var v := args[1..];
    if |v| > 0 {
      head := v[0];
      v := v[1..];
    } else {
      head := "--help";
    }
    rest := v;
  }

  datatype Route = ListCommands | PrintVersion | Spawn(command: string)

  /** The routing `match` on the subcommand. */
  function RouteOf(head: string, exeSuffix: string): (r: Route)
    ensures r == ListCommands <==> head in {"--help", "-h", "help", "-?"}
    ensures r == PrintVersion <==> head in {"--version", "-v", "version"}
    ensures r.Spawn? ==> r.command == "albino-" + head + exeSuffix
  {
    if head == "--help" || head == "-h" || head == "help" || head == "-?" then ListCommands
    else if head == "--version" || head == "-v" || head == "version" then PrintVersion
    else Spawn("albino-" + head + exeSuffix)
  }

  /** The program to run: the sibling of this executable if it exists, else the bare name. */
  function ChildProgram(command: string, host: Host): (r: string)
    ensures host.selfExePath.Some? && host.pathExists(host.join(host.selfExePath.value, command))
            ==> r == host.join(host.selfExePath.value, command)
    ensures !(host.selfExePath.Some? && host.pathExists(host.join(host.selfExePath.value, command)))
            ==> r == command
  {
    match host.selfExePath
    case Some(path) =>
      var p := host.join(path, command);
      if host.pathExists(p) then p else command
    case None => command
  }

  /** `handle_error`: print the message and set the exit status. */
  function HandleErrorSpec(message: string, exit: int, s: State): State
  {
    s.Println(message).SetExitStatus(exit)
  }

  /** How the child's end becomes the router's exit status. */
  function ExitSpec(status: Result<ProcessExit, IoError>, s: State): State
  {
    match status
    case Ok(ExitStatus(0)) => s
    case Ok(ExitStatus(i)) => HandleErrorSpec("", i, s)
    case Ok(ExitSignal(i)) => HandleErrorSpec("", i, s)
    case Err(_) => HandleErrorSpec("no such command.", 127, s)
  }

  /** `main` */
  function MainSpec(host: Host, s: State): State
    requires |host.args| >= 1
  {
    var (cmd, args) := ProcessArgs(host.args);
    match RouteOf(cmd, host.exeSuffix)
    case ListCommands => s.Log(ListedCommands)
    case PrintVersion => s.Println("albino " + Version + ", whitebase " + WhitebaseVersion)
    case Spawn(command) =>
      var program := ChildProgram(command, host);
      ExitSpec(host.status(program, args), s.Log(Spawned(program, args)))
  }

  method HandleError(message: string, exit: int, p: Process)
    modifies p
    ensures p.Current() == HandleErrorSpec(message, exit, old(p.Current()))
  {
    p.Println(message);
    p.SetExitStatus(exit);
  }

  method Start(host: Host, p: Process)
    requires |host.args| >= 1
    modifies p
    ensures p.Current() == MainSpec(host, old(p.Current()))
  {
    var cmd, args := Process(host.args);
    match RouteOf(cmd, host.exeSuffix) {
      case ListCommands =>
        p.Log(ListedCommands);
      case PrintVersion =>
        p.Println("albino " + Version + ", whitebase " + WhitebaseVersion);
      case Spawn(command) =>
        var program := ChildProgram(command, host);
        p.Log(Spawned(program, args));
        match host.status(program, args) {
          case Ok(ExitStatus(0)) =>
          case Ok(ExitStatus(i)) => HandleError("", i, p);
          case Ok(ExitSignal(i)) => HandleError("", i, p);
          case Err(_) => HandleError("no such command.", 127, p);
        }
    }
  }

  // -----------------------------------------------------------------------
  // Properties

  /** No subcommand at all is the same as `--help`. */
  lemma NoArgumentsIsHelp(host: Host, s: State)
    requires |host.args| == 1
    ensures MainSpec(host, s) == s.Log(ListedCommands)
  {
  }

  /** The help heads list the commands and run nothing; the status is untouched. */
  lemma HelpSpawnsNothing(host: Host, s: State)
    requires |host.args| >= 1 && ProcessArgs(host.args).0 in {"--help", "-h", "help", "-?"}
    ensures MainSpec(host, s) == s.Log(ListedCommands)
  {
  }

  /** The version heads print the version line and run nothing. */
  lemma VersionSpawnsNothing(host: Host, s: State)
    requires |host.args| >= 1 && ProcessArgs(host.args).0 in {"--version", "-v", "version"}
    ensures MainSpec(host, s) == s.Println("albino 0.1.0-pre, whitebase 0.1.1")
  {
  }

  /**
   * Any other head runs `albino-<head><suffix>` (preferring the sibling of
   * this executable) with exactly the arguments after the head, and the
   * router's status follows the child's: 0 leaves it, any other code or a
   * signal becomes the status, a failure to start sets 127.
   */
  lemma OtherHeadSpawnsChild(host: Host, s: State)
    requires |host.args| >= 2 && host.args[1] !in {"--help", "-h", "help", "-?", "--version", "-v", "version"}
    ensures var program := ChildProgram("albino-" + host.args[1] + host.exeSuffix, host);
      var r := MainSpec(host, s);
      && r.events == s.events + [Spawned(program, host.args[2..])]
      && r.exitStatus == match host.status(program, host.args[2..])
                         case Ok(ExitStatus(i)) => if i == 0 then s.exitStatus else i
                         case Ok(ExitSignal(i)) => i
                         case Err(_) => 127
  {
  }

  /** A failed spawn prints `no such command.` */
  lemma SpawnFailureMessage(status: Result<ProcessExit, IoError>, s: State)
    requires status.Err?
    ensures ExitSpec(status, s).stdout == s.stdout + "no such command.\n"
  {
  }

  /** `albino run -s bf prog.bf` runs `albino-run` with `-s bf prog.bf`. */
  lemma RunScenario(host: Host, s: State)
    requires host.args == ["albino", "run", "-s", "bf", "prog.bf"]
    ensures MainSpec(host, s).events
         == s.events + [Spawned(ChildProgram("albino-run" + host.exeSuffix, host), ["-s", "bf", "prog.bf"])]
  {
    assert host.args[1] == "run" && host.args[2..] == ["-s", "bf", "prog.bf"];
    OtherHeadSpawnsChild(host, s);
    assert "albino-" + "run" + host.exeSuffix == "albino-run" + host.exeSuffix;
  }
}

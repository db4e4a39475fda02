/**
 * The process a subcommand runs in: the global exit status set by
 * `os::set_exit_status`, the text it prints, and a trace of what it did to
 * the outside world. The outside world itself (arguments, option parsing,
 * opening and reading files) is an oracle.
 */
module Os {
  import opened Wrappers
  import opened Util
  import opened Getopts

  newtype byte = x: int | 0 <= x < 256

  /** `IoError`, kept as the text it prints as. */
  datatype IoError = IoError(message: string)

  /** The streams a stage can hand to the inner operation. */
  datatype Stream = Stdin | Stdout | File(path: string)

  /** Observable actions, in the order they happen. */
  datatype Event =
    | Opened(stream: Stream)                      // a File::open / File::open_mode that succeeded
    | Compiled(target: Target, input: Stream)     // a whitebase compiler consumed the stream
    | Wrote(output: Stream, bytes: seq<byte>)     // compiled or decompiled bytes reached the output
    | Decompiled(target: Target, bytes: seq<byte>)
    | Executed(bytecode: seq<byte>)               // the virtual machine ran this bytecode
    | ListedCommands                              // the router printed its command list
    | Spawned(program: string, args: seq<string>) // the router asked the OS to run a child

  /** The value of a process's observable state. */
  datatype State = State(exitStatus: int, stdout: string, events: seq<Event>)
  {
    function SetExitStatus(code: int): State
    {
      this.(exitStatus := code)
    }

    function Print(text: string): State
    {
      this.(stdout := stdout + text)
    }

    function Println(line: string): State
    {
      Print(line + "\n")
    }

    function Log(e: Event): State
    {
      this.(events := events + [e])
    }
  }

  /** What the environment answers: argv, getopts, file opens and whole-stream reads. */
  datatype World = World(
    args: seq<string>,
    getopts: (seq<string>, seq<OptGroup>) -> Result<Matches, string>,
    openRead: string -> Result<(), IoError>,
    openWrite: string -> Result<(), IoError>,
    readToEnd: Stream -> Result<seq<byte>, IoError>)

  /** A running process; the exit status starts at 0. */
  class Process {
    var exitStatus: int
    var stdout: string
    var events: seq<Event>

    function Current(): State
      reads this
    {
      State(exitStatus, stdout, events)
    }

    constructor ()
      ensures Current() == State(0, "", [])
    {
      exitStatus, stdout, events := 0, "", [];
    }

    /** `os::set_exit_status`: overwrites the status. */
    method SetExitStatus(code: int)
      modifies this
      ensures Current() == old(Current()).SetExitStatus(code)
    {
      exitStatus := code;
    }

    /** `print!` */
    method Print(text: string)
      modifies this
      ensures Current() == old(Current()).Print(text)
    {
      stdout := stdout + text;
    }

    /** `println!` */
    method Println(line: string)
      modifies this
      ensures Current() == old(Current()).Println(line)
    {
      stdout := stdout + (line + "\n");
    }

    method Log(e: Event)
      modifies this
      ensures Current() == old(Current()).Log(e)
    {
      events := events + [e];
    }
  }
}

# albino: command chain, syntax resolution and router, modelled in Dafny

`albino` is a command-line front end for the whitebase toolchain, which
compiles and runs programs written in Whitespace-family esoteric languages.
There are four subcommands, and each one is a separate executable:

- `albino build` compiles a source file into bytecode;
- `albino run` compiles a source file and runs it;
- `albino exec` runs a bytecode file;
- `albino gen` decompiles bytecode back into source text.

The `albino` executable is only a router. This project models:

- **Target resolution** (`Util`, src/util.rs). `-s asm|bf|dt|ook|ws` picks
  the syntax outright. Any other token is unresolved. With no token, the
  last `.`-separated piece of the file name decides, and anything
  unrecognised, including no extension at all, is Whitespace. `Split`
  models Rust's `str::split` exactly, and `Join` is its proved inverse.
- **The command stage chain** (`Command`, src/albino/command.rs).
  - Each constructor pushes its options onto a shared option vector
    (`OptionList`) before delegating inward.
  - `Command.Exec` fails on a parse error, prints usage for `-h`, or runs
    the inner stage.
  - The Run and Load stages open the first free argument or use stdin.
  - The Build and Generate stages open `-o` or use stdout.
  - Run resolves the target from the input name. Generate resolves it from
    the output name.
  - The Rust traits become datatypes that list their implementors in this
    program: `Executable = Run(..) | Load(..)`, `RunExecutable = Build(..) | RunBody`,
    and so on.
- **The four subcommand bodies** (`AlbinoBuild`, `AlbinoRun`, `AlbinoGen`,
  `AlbinoExec`, src/bin/albino-*.rs), and the wiring in each `main`
  (`AlbinoBuildMain`, …). The wiring lives in modules of its own because
  Dafny modules cannot import each other in a cycle.
- **The router** (`Albino`, src/bin/albino.rs). It splits argv, answers
  help and version, builds the child's name, and maps the child's exit
  status to its own.

How the state is modelled:

- The process state is an `Os.Process` object: the global exit status
  (starts at 0, overwritten by `SetExitStatus`), the printed text, and a
  trace of events (files opened, compilers and decompilers invoked, bytes
  written, bytecode run, children spawned).
- Every method that changes the process is specified by a pure function of
  the old state (`…Spec`). The properties are lemmas about those functions.
- The outside world is passed in as values; the model does not implement it:
  - `Os.World`: argv, getopts, `File::open`, `File::open_mode`, `read_to_end`;
  - `Whitebase.Toolchain`: the compilers, decompilers and the machine, as
    functions returning `Ok(bytes)` or `Err(message)`;
  - `Albino.Host`: `self_exe_path`, `Path::exists`, `Command::status`, the
    executable suffix.

Two consequences of the code's structure:
- Build sits inside Run: `BuildCommand::new` returns
  `Command<RunCommand<BuildCommand<E>>>` (src/albino/command.rs:118), so
  the input is opened and its target resolved before the output is opened
  (`AlbinoBuildMain.BuildOpensInputBeforeOutput`).
- `-h` does not set the exit status; it stays as it was
  (`AlbinoRunMain.RunHelpExitsZero`).

## Model

| member | source | states |
|---|---|---|
| Util.Split | src/util.rs:23 | `split('.')` yields at least one piece and no piece contains the separator |
| Util.JoinSplit | src/util.rs:23 | joining the pieces of a split with the separator gives back the original name |
| Util.SplitJoin | src/util.rs:23 | splitting a join of separator-free pieces gives back exactly those pieces |
| Util.SplitAround | src/util.rs:23 | splitting at one dot splits the two sides independently |
| Util.SplitNoSeparator | src/util.rs:23-25 | a name without a dot is a single piece |
| Util.SplitHasTwoPieces | src/util.rs:23-24 | there are at least two pieces if and only if the name contains a dot |
| Util.SplitLastPiece | src/util.rs:27 | the last piece is the text after the last dot |
| Util.ExplicitTokenWins | src/util.rs:13-18 | `asm`, `bf`, `dt`, `ook`, `ws` give Assembly, Brainfuck, DT, Ook, Whitespace whatever the file name |
| Util.ExplicitTokenUnknown | src/util.rs:19 | any other token is unresolved whatever the file name; it never falls through to the extension |
| Util.NoExtensionIsWhitespace | src/util.rs:22-25 | with no token, a name without a dot (including the empty name) gives Whitespace |
| Util.ExtensionPicksTarget | src/util.rs:27-32 | with no token, the last dot-piece `asm`/`bf`/`dt`/`ook` picks its target whatever comes before it, and any other last piece gives Whitespace |
| Util.DetectTarget | src/util.rs:11-37 | `detect_target`: the result is unresolved if and only if a token is given and it is not one of `asm`, `bf`, `dt`, `ook`, `ws`; with no token the file name always yields a target |
| Util.ExtensionExamples | src/util.rs:27-31 | `a.b.ook` gives Ook and `.bf` gives Brainfuck |
| Util.DefaultExamples | src/util.rs:24-32 | `prog.`, `prog.txt` and the empty name give Whitespace |
| Util.ExplicitExamples | src/util.rs:13-19 | `-s bf` on `prog.ws` gives Brainfuck; `BF` and `xyz` are unresolved |
| Command.Command.constructor | src/albino/command.rs:23-31 | `Command::new` appends exactly `-h/--help` after the caller's options and keeps the name, usage, option vector and inner stage |
| Command.NewRunCommand | src/albino/command.rs:80-83 | the options become the earlier ones followed by `[s, h]`; the inner stage is the Run stage |
| Command.NewBuildCommand | src/albino/command.rs:118-121 | the options become the earlier ones followed by `[o, s, h]`; Build sits inside Run |
| Command.NewLoadCommand | src/albino/command.rs:152-154 | the options become the earlier ones followed by `[h]` |
| Command.NewGenerateCommand | src/albino/command.rs:185-189 | the options become the earlier ones followed by `[s, o, h]`; Generate sits inside Load |
| Command.Command.Exec | src/albino/command.rs:33-48 | the new process state is the parse/help/dispatch outcome `ExecSpec` |
| Command.ExecParseFailure | src/albino/command.rs:34-40 | a parse error prints the error and sets status 1; no usage is printed and nothing else happens |
| Command.ExecHelp | src/albino/command.rs:42-44 | with `-h` only the usage text is printed; the status and the event trace are untouched |
| Command.ExecDispatches | src/albino/command.rs:45-47 | otherwise the inner stage runs on the parsed matches |
| Command.StageExec | src/albino/command.rs:45-47 | `self.inner.exec(&matches)`: the new state is the outcome of the Run or the Load stage the command wraps |
| Command.Command.PrintUsage | src/albino/command.rs:50-67 | appends exactly `UsageText`: the header line, `\nOptions:`, then one line per option in vector order |
| Command.PrintOption | src/albino/command.rs:54-66 | one option prints as `\t-short`, `, --long` only when the long name is non-empty, ` hint` for Yes, ` [hint]` for Maybe, then `\n\t\tdesc` or a bare newline |
| Command.OptionsTextAppend | src/albino/command.rs:53-66 | the option block of a concatenated vector is the concatenation of the blocks, so order is preserved |
| Command.OutputOptionLine | src/albino/command.rs:55-66 | `-o` renders as `\t-o name\n\t\tset output file name\n` (no long name) |
| Command.SyntaxOptionLine | src/albino/command.rs:55-66 | `-s` renders as `\t-s, --syntax syntax\n\t\tset input file syntax\n` |
| Command.HelpFlagLine | src/albino/command.rs:55-66 | `-h` renders as `\t-h, --help\n` (no hint, empty description) |
| Command.OptionalArgumentLine | src/albino/command.rs:58 | every option whose argument is optional prints its hint as ` [hint]`, after the short and long names and before the description |
| Command.HandleErrorSetsOne | src/albino/command.rs:87-89 | every chain's handle_error (this forward and those at command.rs lines 125-127, 158-160 and 193-195) reaches its body's handler (albino-build.rs 34-37, albino-run.rs 46-49, albino-gen.rs 43-46, albino-exec.rs 22-25), which prints the error, sets 1 and does nothing else |
| Command.RunStageExec | src/albino/command.rs:91-105 | opens `free[0]` and passes `detect_target(-s, free[0])`, or uses stdin with `detect_target(-s, "")`; a failed open calls only handle_error |
| Command.RunStageOpenFailure | src/albino/command.rs:95-100 | an input that cannot be opened gives exactly the handler's outcome: the error printed, status 1, nothing else, so the inner stage never runs |
| Command.RunInnerExec | src/albino/command.rs:98-103 | the Run stage hands the stream and target to its inner stage: the Build stage, or the run body |
| Command.RunHandleError | src/albino/command.rs:87-89 | the Run stage forwards an I/O error to its inner stage's handle_error: the Build stage's, or the run body's |
| Command.BuildStageExec | src/albino/command.rs:129-139 | opens `-o` or uses stdout, passing buffer and target through; a failed open calls only handle_error |
| Command.BuildStageOpenFailure | src/albino/command.rs:132-134 | an output that cannot be opened gives exactly the handler's outcome: the error printed, status 1, nothing else, so the body never runs |
| Command.BuildInnerExec | src/albino/command.rs:133-137 | the Build stage hands source, output stream and target to the build body |
| Command.BuildHandleError | src/albino/command.rs:125-127 | the Build stage forwards an I/O error to the build body's handle_error |
| Command.BuildStagePassesThrough | src/albino/command.rs:129-139 | the build body receives the Run stage's buffer and target unchanged |
| Command.LoadStageExec | src/albino/command.rs:162-172 | opens `free[0]` or uses stdin, without resolving any target |
| Command.LoadStageOpenFailure | src/albino/command.rs:165-167 | an input that cannot be opened gives exactly the handler's outcome: the error printed, status 1, nothing else, so the inner stage never runs |
| Command.LoadInnerExec | src/albino/command.rs:166-170 | the Load stage hands the opened stream to its inner stage: the Generate stage, or the exec body |
| Command.LoadHandleError | src/albino/command.rs:158-160 | the Load stage forwards an I/O error to its inner stage's handle_error: the Generate stage's, or the exec body's |
| Command.GenerateStageExec | src/albino/command.rs:197-208 | opens `-o` or uses stdout and resolves the target from `-s` and the output name (`""` without `-o`) |
| Command.GenerateStageOpenFailure | src/albino/command.rs:201-203 | an output that cannot be opened gives exactly the handler's outcome: the error printed, status 1, nothing else, so the body never runs |
| Command.GenerateInnerExec | src/albino/command.rs:202-206 | the Generate stage hands reader, output stream and target to the gen body |
| Command.GenerateHandleError | src/albino/command.rs:193-195 | the Generate stage forwards an I/O error to the gen body's handle_error |
| Command.GenerateIgnoresInputName | src/albino/command.rs:197-208 | the outcome does not depend on the input file's name, only on the options and the bytes read |
| AlbinoBuild.Build | src/bin/albino-build.rs:21-29 | runs the target's compiler on the input; on error prints it and sets 1, on success the bytes reach the output |
| AlbinoBuild.HandleError | src/bin/albino-build.rs:34-37 | prints the I/O error and sets status 1 |
| AlbinoBuild.Exec | src/bin/albino-build.rs:39-51 | each of the five targets goes to its own compiler; no target prints the accepted syntaxes and sets 1 |
| AlbinoBuild.ExecCompilesWithTarget | src/bin/albino-build.rs:41-45 | each target compiles the given input once and writes the result to the given output |
| AlbinoBuild.ExecWithoutTarget | src/bin/albino-build.rs:46-49 | no target: the message is printed, status 1, no compiler runs |
| AlbinoBuild.ExecExitStatus | src/bin/albino-build.rs:22-27 | the status is 1 for no target or a compile error and is otherwise untouched |
| AlbinoBuild.HandleErrorExitStatus | src/bin/albino-build.rs:34-37 | handle_error sets 1 and records no event |
| AlbinoBuildMain.Start | src/bin/albino-build.rs:54-62 | `main` runs the chain `build` / `[-s syntax] [-o output] [file]` with options `[o, s, h]` over the build body |
| AlbinoBuildMain.BuildOptionsText | src/albino/command.rs:118-120 | the option block of `build` lists `-o`, then `-s`, then `-h` |
| AlbinoBuildMain.BuildUsageHeader | src/bin/albino-build.rs:57-59 | the first two lines of `albino build -h` are the command, its usage string and `Options:` |
| AlbinoBuildMain.BuildUsageText | src/bin/albino-build.rs:57-61 | the exact text `albino build -h` prints |
| AlbinoBuildMain.BuildOpensInputBeforeOutput | src/albino/command.rs:117-121 | the input is opened and its target resolved before the output is opened; then that target's compiler reads the input and its bytes reach the output |
| AlbinoBuildMain.BuildOutputOpenFailure | src/albino/command.rs:132-134 | an unopenable `-o` sets 1 after the input was opened; nothing is compiled |
| AlbinoBuildMain.BuildFromStdin | src/albino/command.rs:103-137 | no file and no `-s`: stdin is compiled as Whitespace, and the bytecode goes to the `-o` file when given (opened first) or to stdout; status 1 only if compiling fails |
| AlbinoBuildMain.BuildExitStatus | src/bin/albino-build.rs:21-50 | `build` ends with the status unchanged or 1 |
| AlbinoRun.Run | src/bin/albino-run.rs:22-41 | compile into memory, then run exactly those bytes; 1 if compiling fails (the machine does not run), 2 if the run fails |
| AlbinoRun.HandleError | src/bin/albino-run.rs:46-49 | prints the I/O error and sets status 1 |
| AlbinoRun.Exec | src/bin/albino-run.rs:51-63 | each of the five targets goes to its own compiler; no target prints the accepted syntaxes and sets 1 |
| AlbinoRun.ExecCompilesThenRuns | src/bin/albino-run.rs:23-32 | the machine's input is exactly the compiler's output, and it runs only when compiling succeeded |
| AlbinoRun.ExecWithoutTarget | src/bin/albino-run.rs:58-61 | no target: the message is printed, status 1, nothing compiled or run |
| AlbinoRun.ExecExitStatus | src/bin/albino-run.rs:24-37 | the status is 1 for no target or a compile error, 2 for a machine error, and is otherwise untouched |
| AlbinoRun.HandleErrorExitStatus | src/bin/albino-run.rs:46-49 | handle_error sets 1 and records no event |
| AlbinoRunMain.Start | src/bin/albino-run.rs:66-74 | `main` runs the chain `run` / `[-s syntax] [file]` with options `[s, h]` over the run body |
| AlbinoRunMain.RunFromFile | src/albino/command.rs:93-98 | a named input is opened, compiled with the target from `-s` and its name, and the machine runs the compiler's output |
| AlbinoRunMain.RunFromStdin | src/albino/command.rs:103-104 | no file, no `-s`: stdin is compiled as Whitespace |
| AlbinoRunMain.RunHelpExitsZero | src/albino/command.rs:42-44 | `-h` on a fresh process leaves status 0 and does nothing else |
| AlbinoRunMain.RunExitStatus | src/bin/albino-run.rs:22-62 | `run` ends with the status unchanged, 1 or 2 |
| AlbinoGen.Gen | src/bin/albino-gen.rs:21-38 | reads the whole input and decompiles exactly those bytes; a read or decompile error prints and sets 1 |
| AlbinoGen.HandleError | src/bin/albino-gen.rs:43-46 | prints the I/O error and sets status 1 |
| AlbinoGen.Exec | src/bin/albino-gen.rs:48-58 | Assembly, DT and Whitespace go to their decompiler; anything else prints the asm/dt/ws message and sets 1 |
| AlbinoGen.ExecDecompilesWithTarget | src/bin/albino-gen.rs:21-52 | the decompiler of the target receives exactly the bytes read; a read failure decompiles nothing; the status is 1 on either failure and untouched on success |
| AlbinoGen.ExecWithoutDecompiler | src/bin/albino-gen.rs:53-56 | Brainfuck, Ook or no target: message, status 1, nothing decompiled |
| AlbinoGen.HandleErrorExitStatus | src/bin/albino-gen.rs:43-46 | handle_error sets 1 and records no event |
| AlbinoGenMain.Start | src/bin/albino-gen.rs:61-69 | `main` runs the chain `gen` with options `[s, o, h]` over the gen body |
| AlbinoGenMain.GenTargetFromOutputName | src/albino/command.rs:197-203 | `-o prog.asm` decompiles to Assembly, after opening input then output, whatever the input is called |
| AlbinoGenMain.GenToStdout | src/albino/command.rs:162-206 | no `-s` and no `-o`: the named file (opened first) or stdin is read, decompiled as Whitespace and the text written to stdout; status 1 on a read or decompile failure |
| AlbinoGenMain.GenExitStatus | src/bin/albino-gen.rs:21-57 | `gen` ends with the status unchanged or 1 |
| AlbinoExec.HandleError | src/bin/albino-exec.rs:22-25 | prints the I/O error and sets status 1 |
| AlbinoExec.Exec | src/bin/albino-exec.rs:27-42 | reads everything and runs it; a read failure goes to handle_error, a machine failure sets 2 |
| AlbinoExec.ExecRunsWhatWasRead | src/bin/albino-exec.rs:28-32 | the machine receives exactly the bytes read; after a read failure it does not run |
| AlbinoExec.ExecExitStatus | src/bin/albino-exec.rs:28-40 | the status is 1 for a read failure, 2 for a machine failure, and is otherwise untouched |
| AlbinoExec.HandleErrorExitStatus | src/bin/albino-exec.rs:22-25 | handle_error sets 1 and records no event |
| AlbinoExecMain.Start | src/bin/albino-exec.rs:45-53 | `main` runs the chain `exec` / `[file]` whose only option is `-h`, over the exec body |
| AlbinoExecMain.ExecUsageText | src/bin/albino-exec.rs:48-52 | the exact text `albino exec -h` prints |
| AlbinoExecMain.ExecRunsInput | src/albino/command.rs:162-172 | the named file (opened first) or stdin is read and run as is, with no syntax resolved |
| AlbinoExecMain.ExecExitStatus | src/bin/albino-exec.rs:27-42 | `exec` ends with the status unchanged, 1 or 2 |
| Albino.ProcessArgs | src/bin/albino.rs:60-65 | drops the program name; the head followed by the rest is exactly the remaining argv, and with nothing left the head is `--help` and the rest is empty |
| Albino.Process | src/bin/albino.rs:60-65 | the copy-and-shift computes `ProcessArgs` |
| Albino.RouteOf | src/bin/albino.rs:18-32 | the command list is chosen if and only if the head is one of `--help`, `-h`, `help`, `-?`; the version if and only if it is one of `--version`, `-v`, `version`; otherwise the child name is `albino-` + head + suffix |
| Albino.ChildProgram | src/bin/albino.rs:33-43 | the sibling in the executable's directory when it exists, otherwise the bare name |
| Albino.HandleError | src/bin/albino.rs:67-70 | prints the message and sets the given status |
| Albino.Start | src/bin/albino.rs:13-58 | the new state is the routing outcome `MainSpec` |
| Albino.NoArgumentsIsHelp | src/bin/albino.rs:62 | no subcommand behaves as `--help` |
| Albino.HelpSpawnsNothing | src/bin/albino.rs:19-25 | the help heads list the commands, spawn nothing and leave the status alone |
| Albino.VersionSpawnsNothing | src/bin/albino.rs:26-30 | the version heads print `albino 0.1.0-pre, whitebase 0.1.1` and spawn nothing |
| Albino.OtherHeadSpawnsChild | src/bin/albino.rs:31-55 | any other head spawns the child with exactly the remaining arguments; exit 0 keeps the status, another code or a signal `i` sets `i`, a spawn failure sets 127 |
| Albino.SpawnFailureMessage | src/bin/albino.rs:54 | a spawn failure prints `no such command.` |
| Albino.RunScenario | src/bin/albino.rs:44-45 | `albino run -s bf prog.bf` spawns `albino-run` with `-s bf prog.bf` |

## Left out

- whitebase: the compilers, decompilers and the virtual machine are opaque
  functions in `Whitebase.Toolchain`. Their semantics are not modelled.
  Neither are the bytes a failing compiler may already have written, nor
  the machine's own stdin/stdout traffic.
- getopts: parsing is an oracle over argv and the option vector. `Matches`
  is a map from option name to optional value plus the free arguments.
  getopts' `occur` field of `OptGroup` is not modelled, since
  `print_usage` does not read it.
- Real I/O and processes are oracles or events: `File::open`,
  `File::open_mode`, `read_to_end`, `stdin`/`stdout`, `os::args`,
  `os::self_exe_path`, `Path::join`, `Path::exists` and `Command::status`.
  The model does not claim create or truncate semantics for an opened
  output. Closing streams and inheriting the standard streams in the
  router are not modelled.
- Bytes written to stdout are recorded as a `Wrote(Stdout, …)` event. They
  are not mixed into the printed text.
- `os::args().tail()` fails in Rust on an empty argv. The model requires
  argv to hold at least the program name, as an OS supplies it.
- The router's exact help listing is recorded as one `ListedCommands`
  event, and its text is not modelled. `debug!` logging is not modelled.
- `albino::version()` is taken as the constant `0.1.0-pre`. It is a fixed
  format of fixed numbers.
- src/albino.rs, src/albino-build.rs, src/albino-run.rs and
  src/albino-exec.rs are earlier variants of the binaries and are not part
  of this model. Two of them map runtime errors to 1 where the canonical
  binaries use 2.
- AlbinoBuildMain.BuildExitStatus, AlbinoRunMain.RunExitStatus, AlbinoGenMain.GenExitStatus and AlbinoExecMain.ExecExitStatus: each gives only the set of possible statuses for the whole program. The exact status per outcome is stated by the bodies' `ExecExitStatus` lemmas.

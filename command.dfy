/**
 * src/albino/command.rs: the stage chain shared by the subcommands.
 *
 * `Command` registers `-h`, parses the arguments and either prints usage or
 * hands the matches to its inner stage. `RunCommand` opens the source (first
 * free argument, else stdin) and resolves the target from `-s` and that name;
 * `BuildCommand` sits inside it and opens the `-o` sink (else stdout).
 * `LoadCommand` opens the input without resolving anything; `GenerateCommand`
 * sits inside it, opens the `-o` sink and resolves the target from `-s` and
 * the OUTPUT name.
 *
 * The Rust traits `Executable`, `RunExecutable`, `BuildExecutable`,
 * `LoadExecutable` and `GenerateExecutable` are modelled as datatypes listing
 * their implementors in this program; the subcommand bodies are the leaves.
 */
module Command {
  import opened Wrappers
  import opened Util
  import opened Getopts
  import opened Os
  import opened Whitebase
  import AlbinoBuild
  import AlbinoRun
  import AlbinoGen
  import AlbinoExec

  datatype Executable = Run(run: RunExecutable) | Load(load: LoadExecutable)
  datatype RunExecutable = Build(build: BuildExecutable) | RunBody
  datatype BuildExecutable = BuildBody
  datatype LoadExecutable = Generate(generate: GenerateExecutable) | ExecBody
  datatype GenerateExecutable = GenBody

  const HelpFlag := OptFlag("h", "help", "")
  const SyntaxOption := OptOpt("s", "syntax", "set input file syntax", "syntax")
  const OutputOption := OptOpt("o", "", "set output file name", "name")

  /** The `Vec<OptGroup>` every constructor pushes onto. */
  class OptionList {
    var groups: seq<OptGroup>

    constructor ()
      ensures groups == []
    {
      groups := [];
    }

    method Push(g: OptGroup)
      modifies this
      ensures groups == old(groups) + [g]
    {
      groups := groups + [g];
    }
  }

  // -----------------------------------------------------------------------
  // Usage text

  function UsageHeader(command: string, usage: string): string
  {
    "usage: albino " + command + " " + usage + "\n" + "\nOptions:\n"
  }

  /** One option as `print_usage` prints it: short name, long name, argument hint, description. */
  function OptionLine(opt: OptGroup): string
  {
    "\t-" + opt.shortName + LongPart(opt) + HintPart(opt) + DescPart(opt)
  }

  /** `, --long`, only when there is a long name. */
  function LongPart(opt: OptGroup): string
  {
    if |opt.longName| > 0 then ", --" + opt.longName else ""
  }

  /** ` hint` for a required argument, ` [hint]` for an optional one, nothing for a flag. */
  function HintPart(opt: OptGroup): string
  {
    match opt.hasarg
    case Yes => " " + opt.hint
    case Maybe => " [" + opt.hint + "]"
    case No => ""
  }

  /** The description on its own indented line, or a bare newline when there is none. */
  function DescPart(opt: OptGroup): string
  {
    if |opt.desc| > 0 then "\n\t\t" + opt.desc + "\n" else "\n"
  }

  function OptionsText(opts: seq<OptGroup>): string
  {
    if opts == [] then "" else OptionLine(opts[0]) + OptionsText(opts[1..])
  }

  function UsageText(command: string, usage: string, opts: seq<OptGroup>): string
  {
    UsageHeader(command, usage) + OptionsText(opts)
  }

  /** The options are listed one after another, in the order they were pushed. */
  lemma {:induction false} OptionsTextAppend(a: seq<OptGroup>, b: seq<OptGroup>)
    ensures OptionsText(a + b) == OptionsText(a) + OptionsText(b)
    decreases |a|
  {
    if a == [] {
      assert a + b == b;
    } else {
      assert (a + b)[0] == a[0];
      assert (a + b)[1..] == a[1..] + b;
      OptionsTextAppend(a[1..], b);
    }
  }

  // -----------------------------------------------------------------------
  // Dispatch, as functions of the process state

  /** `Command::exec`: a parse error prints and sets 1; `-h` prints usage; otherwise the inner stage runs. */
  function ExecSpec(command: string, usage: string, opts: seq<OptGroup>, inner: Executable,
                    w: World, tc: Toolchain, s: State): State
    requires |w.args| >= 1
  {
    match w.getopts(w.args[1..], opts)
    case Err(e) => s.Println(e).SetExitStatus(1)
    case Ok(m) =>
      if m.OptPresent("h") then s.Print(UsageText(command, usage, opts))
      else StageSpec(inner, m, w, tc, s)
  }

  function StageSpec(inner: Executable, m: Matches, w: World, tc: Toolchain, s: State): State
  {
    match inner
    case Run(r) => RunStageSpec(r, m, w, tc, s)
    case Load(l) => LoadStageSpec(l, m, w, tc, s)
  }

  /** `RunCommand::exec` */
  function RunStageSpec(inner: RunExecutable, m: Matches, w: World, tc: Toolchain, s: State): State
  {
    var syntax := m.OptStr("s");
    if |m.free| > 0 then
      var filename := m.free[0];
      match w.openRead(filename)
      case Ok(_) => RunInnerSpec(inner, m, File(filename), DetectTarget(syntax, filename), w, tc, s.Log(Opened(File(filename))))
      case Err(e) => RunHandleErrorSpec(inner, e, s)
    else RunInnerSpec(inner, m, Stdin, DetectTarget(syntax, ""), w, tc, s)
  }

  function RunInnerSpec(inner: RunExecutable, m: Matches, buffer: Stream, target: Option<Target>,
                        w: World, tc: Toolchain, s: State): State
  {
    match inner
    case Build(b) => BuildStageSpec(b, m, buffer, target, w, tc, s)
    case RunBody => AlbinoRun.ExecSpec(buffer, target, tc, s)
  }

  function RunHandleErrorSpec(inner: RunExecutable, e: IoError, s: State): State
  {
    match inner
    case Build(b) => BuildHandleErrorSpec(b, e, s)
    case RunBody => AlbinoRun.HandleErrorSpec(e, s)
  }

  /** `BuildCommand::exec` (inside the Run stage) */
  function BuildStageSpec(inner: BuildExecutable, m: Matches, buffer: Stream, target: Option<Target>,
                          w: World, tc: Toolchain, s: State): State
  {
    match m.OptStr("o")
    case Some(name) =>
      (match w.openWrite(name)
       case Ok(_) => BuildInnerSpec(inner, buffer, File(name), target, tc, s.Log(Opened(File(name))))
       case Err(e) => BuildHandleErrorSpec(inner, e, s))
    case None => BuildInnerSpec(inner, buffer, Stdout, target, tc, s)
  }

  function BuildInnerSpec(inner: BuildExecutable, buffer: Stream, output: Stream, target: Option<Target>,
                          tc: Toolchain, s: State): State
  {
    match inner
    case BuildBody => AlbinoBuild.ExecSpec(buffer, output, target, tc, s)
  }

  function BuildHandleErrorSpec(inner: BuildExecutable, e: IoError, s: State): State
  {
    match inner
    case BuildBody => AlbinoBuild.HandleErrorSpec(e, s)
  }

  /** `LoadCommand::exec` */
  function LoadStageSpec(inner: LoadExecutable, m: Matches, w: World, tc: Toolchain, s: State): State
  {
    if |m.free| > 0 then
      var filename := m.free[0];
      match w.openRead(filename)
      case Ok(_) => LoadInnerSpec(inner, m, File(filename), w, tc, s.Log(Opened(File(filename))))
      case Err(e) => LoadHandleErrorSpec(inner, e, s)
    else LoadInnerSpec(inner, m, Stdin, w, tc, s)
  }

  function LoadInnerSpec(inner: LoadExecutable, m: Matches, reader: Stream, w: World, tc: Toolchain, s: State): State
  {
    match inner
    case Generate(g) => GenerateStageSpec(g, m, reader, w, tc, s)
    case ExecBody => AlbinoExec.ExecSpec(reader, w, tc, s)
  }

  function LoadHandleErrorSpec(inner: LoadExecutable, e: IoError, s: State): State
  {
    match inner
    case Generate(g) => GenerateHandleErrorSpec(g, e, s)
    case ExecBody => AlbinoExec.HandleErrorSpec(e, s)
  }

  /** `GenerateCommand::exec` (inside the Load stage) */
  function GenerateStageSpec(inner: GenerateExecutable, m: Matches, reader: Stream,
                             w: World, tc: Toolchain, s: State): State
  {
    var syntax := m.OptStr("s");
    match m.OptStr("o")
    case Some(name) =>
      (match w.openWrite(name)
       case Ok(_) => GenerateInnerSpec(inner, reader, File(name), DetectTarget(syntax, name), w, tc, s.Log(Opened(File(name))))
       case Err(e) => GenerateHandleErrorSpec(inner, e, s))
    case None => GenerateInnerSpec(inner, reader, Stdout, DetectTarget(syntax, ""), w, tc, s)
  }

  function GenerateInnerSpec(inner: GenerateExecutable, reader: Stream, writer: Stream, target: Option<Target>,
                             w: World, tc: Toolchain, s: State): State
  {
    match inner
    case GenBody => AlbinoGen.ExecSpec(reader, writer, target, w, tc, s)
  }

  function GenerateHandleErrorSpec(inner: GenerateExecutable, e: IoError, s: State): State
  {
    match inner
    case GenBody => AlbinoGen.HandleErrorSpec(e, s)
  }

  // -----------------------------------------------------------------------
  // Properties of the dispatch

  /** A parse error: the error is printed, status 1, no usage and no inner stage. */
  lemma ExecParseFailure(command: string, usage: string, opts: seq<OptGroup>, inner: Executable,
                         w: World, tc: Toolchain, s: State)
    requires |w.args| >= 1 && w.getopts(w.args[1..], opts).Err?
    ensures var r := ExecSpec(command, usage, opts, inner, w, tc, s);
      r.exitStatus == 1 && r.events == s.events
      && r.stdout == s.stdout + w.getopts(w.args[1..], opts).error + "\n"
  {
  }

  /** `-h`: only the usage text is printed; the status and the outside world are untouched. */
  lemma ExecHelp(command: string, usage: string, opts: seq<OptGroup>, inner: Executable,
                 w: World, tc: Toolchain, s: State)
    requires |w.args| >= 1 && w.getopts(w.args[1..], opts).Ok?
    requires w.getopts(w.args[1..], opts).value.OptPresent("h")
    ensures var r := ExecSpec(command, usage, opts, inner, w, tc, s);
      r.exitStatus == s.exitStatus && r.events == s.events
      && r.stdout == s.stdout + UsageText(command, usage, opts)
  {
  }

  /** Otherwise the matches go, unchanged, to the inner stage. */
  lemma ExecDispatches(command: string, usage: string, opts: seq<OptGroup>, inner: Executable,
                       w: World, tc: Toolchain, s: State)
    requires |w.args| >= 1 && w.getopts(w.args[1..], opts).Ok?
    requires !w.getopts(w.args[1..], opts).value.OptPresent("h")
    ensures ExecSpec(command, usage, opts, inner, w, tc, s)
         == StageSpec(inner, w.getopts(w.args[1..], opts).value, w, tc, s)
  {
  }

  /** Every body's handle_error: the error is printed, status 1, nothing else. */
  lemma HandleErrorSetsOne(inner: Executable, e: IoError, s: State)
    ensures var r := match inner
                     case Run(i) => RunHandleErrorSpec(i, e, s)
                     case Load(i) => LoadHandleErrorSpec(i, e, s);
      r.exitStatus == 1 && r.events == s.events && r.stdout == s.stdout + e.message + "\n"
  {
  }

  /** Run stage: an input file that cannot be opened reaches handle_error only: the error is printed, status 1, nothing else. */
  lemma RunStageOpenFailure(inner: RunExecutable, m: Matches, w: World, tc: Toolchain, s: State)
    requires |m.free| > 0 && w.openRead(m.free[0]).Err?
    ensures RunStageSpec(inner, m, w, tc, s) == s.Println(w.openRead(m.free[0]).error.message).SetExitStatus(1)
  {
  }

  /** Build stage: an output file that cannot be opened reaches handle_error only: the error is printed, status 1, nothing else. */
  lemma BuildStageOpenFailure(inner: BuildExecutable, m: Matches, buffer: Stream, target: Option<Target>,
                              w: World, tc: Toolchain, s: State)
    requires m.OptStr("o").Some? && w.openWrite(m.OptStr("o").value).Err?
    ensures BuildStageSpec(inner, m, buffer, target, w, tc, s)
         == s.Println(w.openWrite(m.OptStr("o").value).error.message).SetExitStatus(1)
  {
  }

  /** Build stage: the source and the target go through unchanged; stdout when there is no `-o`. */
  lemma BuildStagePassesThrough(m: Matches, buffer: Stream, target: Option<Target>, w: World, tc: Toolchain, s: State)
    ensures BuildStageSpec(BuildBody, m, buffer, target, w, tc, s)
         == match m.OptStr("o")
            case None => AlbinoBuild.ExecSpec(buffer, Stdout, target, tc, s)
            case Some(name) =>
              if w.openWrite(name).Ok? then AlbinoBuild.ExecSpec(buffer, File(name), target, tc, s.Log(Opened(File(name))))
              else AlbinoBuild.HandleErrorSpec(w.openWrite(name).error, s)
  {
  }

  /** Load stage: an input file that cannot be opened reaches handle_error only: the error is printed, status 1, nothing else. */
  lemma LoadStageOpenFailure(inner: LoadExecutable, m: Matches, w: World, tc: Toolchain, s: State)
    requires |m.free| > 0 && w.openRead(m.free[0]).Err?
    ensures LoadStageSpec(inner, m, w, tc, s) == s.Println(w.openRead(m.free[0]).error.message).SetExitStatus(1)
  {
  }

  /** Generate stage: an output file that cannot be opened reaches handle_error only: the error is printed, status 1, nothing else. */
  lemma GenerateStageOpenFailure(inner: GenerateExecutable, m: Matches, reader: Stream,
                                 w: World, tc: Toolchain, s: State)
    requires m.OptStr("o").Some? && w.openWrite(m.OptStr("o").value).Err?
    ensures GenerateStageSpec(inner, m, reader, w, tc, s)
         == s.Println(w.openWrite(m.OptStr("o").value).error.message).SetExitStatus(1)
  {
  }

  /**
   * The Load and Generate stages never look at the input's name when
   * resolving the target: two invocations whose options agree and whose
   * inputs read the same bytes behave the same, apart from which file is named.
   */
  lemma GenerateIgnoresInputName(m1: Matches, m2: Matches, reader1: Stream, reader2: Stream,
                                 w: World, tc: Toolchain, s: State)
    requires m1.values == m2.values
    requires w.readToEnd(reader1) == w.readToEnd(reader2)
    ensures GenerateStageSpec(GenBody, m1, reader1, w, tc, s) == GenerateStageSpec(GenBody, m2, reader2, w, tc, s)
  {
  }

  /** `-o`: no long name, a required argument, a description. */
  lemma OutputOptionLine()
    ensures OptionLine(OutputOption) == "\t-o" + " name" + "\n\t\tset output file name\n"
  {
    assert LongPart(OutputOption) == "";
    assert HintPart(OutputOption) == " name";
    assert DescPart(OutputOption) == "\n\t\tset output file name\n";
  }

  /** `-s`: a long name, a required argument, a description. */
  lemma SyntaxOptionLine()
    ensures OptionLine(SyntaxOption) == "\t-s" + ", --syntax" + " syntax" + "\n\t\tset input file syntax\n"
  {
    assert LongPart(SyntaxOption) == ", --syntax";
    assert HintPart(SyntaxOption) == " syntax";
    assert DescPart(SyntaxOption) == "\n\t\tset input file syntax\n";
  }

  /** `-h`: a long name, no argument, no description (a bare newline). */
  lemma HelpFlagLine()
    ensures OptionLine(HelpFlag) == "\t-h" + ", --help" + "\n"
  {
    assert LongPart(HelpFlag) == ", --help";
    assert HintPart(HelpFlag) == "";
    assert DescPart(HelpFlag) == "\n";
  }

  /** Any option with an optional argument shows its hint in brackets, between the names and the description. */
  lemma OptionalArgumentLine(opt: OptGroup)
    requires opt.hasarg == Maybe
    ensures OptionLine(opt) == "\t-" + opt.shortName + LongPart(opt) + " [" + opt.hint + "]" + DescPart(opt)
  {
  }

  // -----------------------------------------------------------------------
  // The chain itself

  /** `Command<'a, E>`: name, usage string, the shared option vector and the inner stage. */
  class Command {
    const command: string
    const usage: string
    const options: OptionList
    const inner: Executable

    /** `Command::new`: appends `-h/--help` to the caller's options. */
    constructor (command: string, usage: string, options: OptionList, exec: Executable)
      modifies options
      ensures this.command == command && this.usage == usage && this.options == options && inner == exec
      ensures options.groups == old(options.groups) + [HelpFlag]
    {
      this.command := command;
      this.usage := usage;
      this.options := options;
      this.inner := exec;
      new;
      options.Push(HelpFlag);
    }

    method Exec(w: World, tc: Toolchain, p: Process)
      requires |w.args| >= 1
      modifies p
      ensures p.Current() == ExecSpec(command, usage, options.groups, inner, w, tc, old(p.Current()))
    {
      match w.getopts(w.args[1..], options.groups) {
        case Err(e) =>
          p.Println(e);
          p.SetExitStatus(1);
        case Ok(matches) =>
          if matches.OptPresent("h") {
            PrintUsage(p);
          } else {
            StageExec(inner, matches, w, tc, p);
          }
      }
    }

    method PrintUsage(p: Process)
      modifies p
      ensures p.Current() == old(p.Current()).Print(UsageText(command, usage, options.groups))
    {
      ghost var start := p.stdout;
      p.Println("usage: albino " + command + " " + usage);
      p.Println("\nOptions:");
      Associative(start, "usage: albino " + command + " " + usage + "\n", "\nOptions:" + "\n");
      var opts := options.groups;
      for i := 0 to |opts|
        invariant p.exitStatus == old(p.exitStatus) && p.events == old(p.events)
        invariant p.stdout == start + UsageHeader(command, usage) + OptionsText(opts[..i])
      {
        PrintOption(opts[i], p);
        UsageStep(start + UsageHeader(command, usage), opts, i);
      }
      assert opts[..|opts|] == opts;
      Associative(start, UsageHeader(command, usage), OptionsText(opts));
    }
  }

  /** The body of `print_usage`'s loop: one option, piece by piece. */
  method PrintOption(opt: OptGroup, p: Process)
    modifies p
    ensures p.Current() == old(p.Current()).Print(OptionLine(opt))
  {
    ghost var start := p.stdout;
    p.Print("\t-" + opt.shortName);
    if |opt.longName| > 0 {
      p.Print(", --" + opt.longName);
    }
    assert p.stdout == start + ("\t-" + opt.shortName) + LongPart(opt);
    match opt.hasarg {
      case Yes =>
        p.Print(" " + opt.hint);
      case Maybe =>
        p.Print(" [" + opt.hint + "]");
      case No =>
    }
    assert p.stdout == start + ("\t-" + opt.shortName) + LongPart(opt) + HintPart(opt);
    if |opt.desc| > 0 {
      p.Println("\n\t\t" + opt.desc);
    } else {
      p.Println("");
    }
    assert p.stdout == start + ("\t-" + opt.shortName) + LongPart(opt) + HintPart(opt) + DescPart(opt);
    var a, b, c := "\t-" + opt.shortName, LongPart(opt), HintPart(opt);
    Associative(start, a, b);
    Associative(start, a + b, c);
    Associative(start, a + b + c, DescPart(opt));
  }

  /** Printing in two steps appends what one step would. */
  lemma Associative(a: string, b: string, c: string)
    ensures (a + b) + c == a + (b + c)
  {
  }

  /** One turn of `print_usage`'s loop extends the printed option block by one line. */
  lemma UsageStep(prefix: string, opts: seq<OptGroup>, i: nat)
    requires i < |opts|
    ensures prefix + OptionsText(opts[..i]) + OptionLine(opts[i]) == prefix + OptionsText(opts[..i + 1])
  {
    assert opts[..i + 1] == opts[..i] + [opts[i]];
    OptionsTextAppend(opts[..i], [opts[i]]);
    assert OptionsText([opts[i]]) == OptionLine(opts[i]);
  }

  /** `RunCommand::new`: pushes `-s`, then wraps itself in a `Command`. */
  method NewRunCommand(command: string, usage: string, options: OptionList, exec: RunExecutable) returns (c: Command)
    modifies options
    ensures c.command == command && c.usage == usage && c.options == options && c.inner == Run(exec)
    ensures options.groups == old(options.groups) + [SyntaxOption, HelpFlag]
  {
    options.Push(SyntaxOption);
    c := new Command(command, usage, options, Run(exec));
  }

  /** `BuildCommand::new`: pushes `-o`, then goes through `RunCommand::new`. */
  method NewBuildCommand(command: string, usage: string, options: OptionList, exec: BuildExecutable) returns (c: Command)
    modifies options
    ensures c.command == command && c.usage == usage && c.options == options && c.inner == Run(Build(exec))
    ensures options.groups == old(options.groups) + [OutputOption, SyntaxOption, HelpFlag]
  {
    options.Push(OutputOption);
    c := NewRunCommand(command, usage, options, Build(exec));
  }

  /** `LoadCommand::new`: adds no option of its own. */
  method NewLoadCommand(command: string, usage: string, options: OptionList, exec: LoadExecutable) returns (c: Command)
    modifies options
    ensures c.command == command && c.usage == usage && c.options == options && c.inner == Load(exec)
    ensures options.groups == old(options.groups) + [HelpFlag]
  {
    c := new Command(command, usage, options, Load(exec));
  }

  /** `GenerateCommand::new`: pushes `-s` and `-o`, then goes through `LoadCommand::new`. */
  method NewGenerateCommand(command: string, usage: string, options: OptionList, exec: GenerateExecutable) returns (c: Command)
    modifies options
    ensures c.command == command && c.usage == usage && c.options == options && c.inner == Load(Generate(exec))
    ensures options.groups == old(options.groups) + [SyntaxOption, OutputOption, HelpFlag]
  {
    options.Push(SyntaxOption);
    options.Push(OutputOption);
    c := NewLoadCommand(command, usage, options, Generate(exec));
  }

  // -----------------------------------------------------------------------
  // The stages' exec and handle_error methods

  method StageExec(inner: Executable, m: Matches, w: World, tc: Toolchain, p: Process)
    modifies p
    ensures p.Current() == StageSpec(inner, m, w, tc, old(p.Current()))
  {
    match inner {
      case Run(r) => RunStageExec(r, m, w, tc, p);
      case Load(l) => LoadStageExec(l, m, w, tc, p);
    }
  }

  method RunStageExec(inner: RunExecutable, m: Matches, w: World, tc: Toolchain, p: Process)
    modifies p
    ensures p.Current() == RunStageSpec(inner, m, w, tc, old(p.Current()))
  {
    var syntax := m.OptStr("s");
    if |m.free| > 0 {
      var filename := m.free[0];
      match w.openRead(filename) {
        case Ok(_) =>
          p.Log(Opened(File(filename)));
          RunInnerExec(inner, m, File(filename), DetectTarget(syntax, filename), w, tc, p);
        case Err(e) =>
          RunHandleError(inner, e, p);
      }
    } else {
      RunInnerExec(inner, m, Stdin, DetectTarget(syntax, ""), w, tc, p);
    }
  }

  method RunInnerExec(inner: RunExecutable, m: Matches, buffer: Stream, target: Option<Target>,
                      w: World, tc: Toolchain, p: Process)
    modifies p
    ensures p.Current() == RunInnerSpec(inner, m, buffer, target, w, tc, old(p.Current()))
  {
    match inner {
      case Build(b) => BuildStageExec(b, m, buffer, target, w, tc, p);
      case RunBody => AlbinoRun.Exec(buffer, target, tc, p);
    }
  }

  method RunHandleError(inner: RunExecutable, e: IoError, p: Process)
    modifies p
    ensures p.Current() == RunHandleErrorSpec(inner, e, old(p.Current()))
  {
    match inner {
      case Build(b) => BuildHandleError(b, e, p);
      case RunBody => AlbinoRun.HandleError(e, p);
    }
  }

  method BuildStageExec(inner: BuildExecutable, m: Matches, buffer: Stream, target: Option<Target>,
                        w: World, tc: Toolchain, p: Process)
    modifies p
    ensures p.Current() == BuildStageSpec(inner, m, buffer, target, w, tc, old(p.Current()))
  {
    match m.OptStr("o") {
      case Some(name) =>
        match w.openWrite(name) {
          case Ok(_) =>
            p.Log(Opened(File(name)));
            BuildInnerExec(inner, buffer, File(name), target, tc, p);
          case Err(e) =>
            BuildHandleError(inner, e, p);
        }
      case None =>
        BuildInnerExec(inner, buffer, Stdout, target, tc, p);
    }
  }

  method BuildInnerExec(inner: BuildExecutable, buffer: Stream, output: Stream, target: Option<Target>,
                        tc: Toolchain, p: Process)
    modifies p
    ensures p.Current() == BuildInnerSpec(inner, buffer, output, target, tc, old(p.Current()))
  {
    match inner {
      case BuildBody => AlbinoBuild.Exec(buffer, output, target, tc, p);
    }
  }

  method BuildHandleError(inner: BuildExecutable, e: IoError, p: Process)
    modifies p
    ensures p.Current() == BuildHandleErrorSpec(inner, e, old(p.Current()))
  {
    match inner {
      case BuildBody => AlbinoBuild.HandleError(e, p);
    }
  }

  method LoadStageExec(inner: LoadExecutable, m: Matches, w: World, tc: Toolchain, p: Process)
    modifies p
    ensures p.Current() == LoadStageSpec(inner, m, w, tc, old(p.Current()))
  {
    if |m.free| > 0 {
      var filename := m.free[0];
      match w.openRead(filename) {
        case Ok(_) =>
          p.Log(Opened(File(filename)));
          LoadInnerExec(inner, m, File(filename), w, tc, p);
        case Err(e) =>
          LoadHandleError(inner, e, p);
      }
    } else {
      LoadInnerExec(inner, m, Stdin, w, tc, p);
    }
  }

  method LoadInnerExec(inner: LoadExecutable, m: Matches, reader: Stream, w: World, tc: Toolchain, p: Process)
    modifies p
    ensures p.Current() == LoadInnerSpec(inner, m, reader, w, tc, old(p.Current()))
  {
    match inner {
      case Generate(g) => GenerateStageExec(g, m, reader, w, tc, p);
      case ExecBody => AlbinoExec.Exec(reader, w, tc, p);
    }
  }

  method LoadHandleError(inner: LoadExecutable, e: IoError, p: Process)
    modifies p
    ensures p.Current() == LoadHandleErrorSpec(inner, e, old(p.Current()))
  {
    match inner {
      case Generate(g) => GenerateHandleError(g, e, p);
      case ExecBody => AlbinoExec.HandleError(e, p);
    }
  }

  method GenerateStageExec(inner: GenerateExecutable, m: Matches, reader: Stream,
                           w: World, tc: Toolchain, p: Process)
    modifies p
    ensures p.Current() == GenerateStageSpec(inner, m, reader, w, tc, old(p.Current()))
  {
    var syntax := m.OptStr("s");
    match m.OptStr("o") {
      case Some(name) =>
        match w.openWrite(name) {
          case Ok(_) =>
            p.Log(Opened(File(name)));
            GenerateInnerExec(inner, reader, File(name), DetectTarget(syntax, name), w, tc, p);
          case Err(e) =>
            GenerateHandleError(inner, e, p);
        }
      case None =>
        GenerateInnerExec(inner, reader, Stdout, DetectTarget(syntax, ""), w, tc, p);
    }
  }

  method GenerateInnerExec(inner: GenerateExecutable, reader: Stream, writer: Stream, target: Option<Target>,
                           w: World, tc: Toolchain, p: Process)
    modifies p
    ensures p.Current() == GenerateInnerSpec(inner, reader, writer, target, w, tc, old(p.Current()))
  {
    match inner {
      case GenBody => AlbinoGen.Exec(reader, writer, target, w, tc, p);
    }
  }

  method GenerateHandleError(inner: GenerateExecutable, e: IoError, p: Process)
    modifies p
    ensures p.Current() == GenerateHandleErrorSpec(inner, e, old(p.Current()))
  {
    match inner {
      case GenBody => AlbinoGen.HandleError(e, p);
    }
  }
}

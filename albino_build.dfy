/**
 * src/bin/albino-build.rs: the body of `albino build`. It compiles the source
 * stream with the compiler of the resolved syntax into the output stream.
 */
module AlbinoBuild {
  import opened Wrappers
  import opened Util
  import opened Os
  import opened Whitebase

  const SyntaxMessage := "syntax should be \"asm\", \"bf\", \"dt\", \"ook\" or \"ws\" (default: ws)"

  /** `build`: compile; on failure print the error and set status 1. */
  function BuildSpec(input: Stream, output: Stream, syntax: Target, tc: Toolchain, s: State): State
  {
    var s1 := s.Log(Compiled(syntax, input));
    match tc.compile(syntax, input)
    case Err(e) => s1.Println(e).SetExitStatus(1)
    case Ok(bytes) => s1.Log(Wrote(output, bytes))
  }

  /** `CommandBody::handle_error`: print the I/O error and set status 1. */
  function HandleErrorSpec(e: IoError, s: State): State
  {
    s.Println(e.message).SetExitStatus(1)
  }

  /** `CommandBody::exec`: one compiler per target; no target is an error. */
  function ExecSpec(input: Stream, output: Stream, target: Option<Target>, tc: Toolchain, s: State): State
  {
    match target
    case Some(t) => BuildSpec(input, output, t, tc, s)
    case None => s.Println(SyntaxMessage).SetExitStatus(1)
  }

  method Build(input: Stream, output: Stream, syntax: Target, tc: Toolchain, p: Process)
    modifies p
    ensures p.Current() == BuildSpec(input, output, syntax, tc, old(p.Current()))
  {
    p.Log(Compiled(syntax, input));
    match tc.compile(syntax, input) {
      case Err(e) =>
        p.Println(e);
        p.SetExitStatus(1);
      case Ok(bytes) =>
        p.Log(Wrote(output, bytes));
    }
  }

  method HandleError(e: IoError, p: Process)
    modifies p
    ensures p.Current() == HandleErrorSpec(e, old(p.Current()))
  {
    p.Println(e.message);
    p.SetExitStatus(1);
  }

  method Exec(input: Stream, output: Stream, target: Option<Target>, tc: Toolchain, p: Process)
    modifies p
    ensures p.Current() == ExecSpec(input, output, target, tc, old(p.Current()))
  {
    match target {
      case Some(Assembly) => Build(input, output, Assembly, tc, p);
      case Some(Brainfuck) => Build(input, output, Brainfuck, tc, p);
      case Some(DT) => Build(input, output, DT, tc, p);
      case Some(Ook) => Build(input, output, Ook, tc, p);
      case Some(Whitespace) => Build(input, output, Whitespace, tc, p);
      case None =>
        p.Println(SyntaxMessage);
        p.SetExitStatus(1);
    }
  }

  /** Each target runs its own compiler once, on the given input, writing to the given output. */
  lemma ExecCompilesWithTarget(input: Stream, output: Stream, t: Target, tc: Toolchain, s: State)
    ensures var r := ExecSpec(input, output, Some(t), tc, s);
      match tc.compile(t, input)
      case Ok(bytes) => r.events == s.events + [Compiled(t, input), Wrote(output, bytes)]
      case Err(_) => r.events == s.events + [Compiled(t, input)]
  {
  }

  /** No target: the accepted syntaxes are printed, status 1, nothing is compiled. */
  lemma ExecWithoutTarget(input: Stream, output: Stream, tc: Toolchain, s: State)
    ensures var r := ExecSpec(input, output, None, tc, s);
      r.exitStatus == 1 && r.events == s.events && r.stdout == s.stdout + SyntaxMessage + "\n"
  {
  }

  /** Exit policy: 1 for a missing target or a compile error, otherwise untouched. */
  lemma ExecExitStatus(input: Stream, output: Stream, target: Option<Target>, tc: Toolchain, s: State)
    ensures ExecSpec(input, output, target, tc, s).exitStatus
         == if target.None? || tc.compile(target.value, input).Err? then 1 else s.exitStatus
  {
  }

  /** An I/O failure reported by a stage: status 1, nothing else happens. */
  lemma HandleErrorExitStatus(e: IoError, s: State)
    ensures HandleErrorSpec(e, s).exitStatus == 1
    ensures HandleErrorSpec(e, s).events == s.events
  {
  }
}

/** src/bin/albino-build.rs `main`: the body wired through `BuildCommand` as `build`. */
module AlbinoBuildMain {
  import opened Wrappers
  import opened Util
  import opened Getopts
  import opened Os
  import opened Whitebase
  import opened Command

  const Usage := "[-s syntax] [-o output] [file]"

  /** The option order BuildCommand::new produces: the innermost stage pushes first. */
  const Options := [OutputOption, SyntaxOption, HelpFlag]

  function Program(w: World, tc: Toolchain, s: State): State
    requires |w.args| >= 1
  {
    ExecSpec("build", Usage, Options, Run(Build(BuildBody)), w, tc, s)
  }

  method Start(w: World, tc: Toolchain, p: Process)
    requires |w.args| >= 1
    modifies p
    ensures p.Current() == Program(w, tc, old(p.Current()))
  {
    var opts := new OptionList();
    var cmd := NewBuildCommand("build", Usage, opts, BuildBody);
    assert opts.groups == Options;
    assert cmd.options.groups == Options && cmd.command == "build" && cmd.usage == Usage && cmd.inner == Run(Build(BuildBody));
    assert p.Current() == old(p.Current());
    cmd.Exec(w, tc, p);
  }

  /** The option lines of `albino build -h`, in the order `-o`, `-s`, `-h`. */
  lemma BuildOptionsText()
    ensures OptionsText(Options) == OptionLine(OutputOption) + (OptionLine(SyntaxOption) + OptionLine(HelpFlag))
  {
    var rest := [SyntaxOption, HelpFlag];
    assert Options == [OutputOption] + rest && rest[1..] == [HelpFlag] && [HelpFlag][1..] == [];
    assert OptionsText([HelpFlag]) == OptionLine(HelpFlag);
    assert OptionsText(rest) == OptionLine(SyntaxOption) + OptionsText([HelpFlag]);
    assert OptionsText(Options) == OptionLine(OutputOption) + OptionsText(rest);
  }

  /** The first two lines of `albino build -h`. */
  lemma BuildUsageHeader()
    ensures UsageHeader("build", Usage)
         == "usage: albino build [-s syntax] [-o output] [file]\n" + "\nOptions:\n"
  {
    assert "usage: albino " + "build" == "usage: albino build";
    assert "usage: albino build" + " " == "usage: albino build ";
    assert "usage: albino build " + Usage == "usage: albino build [-s syntax] [-o output] [file]";
    assert "usage: albino build [-s syntax] [-o output] [file]" + "\n" == "usage: albino build [-s syntax] [-o output] [file]\n";
  }

  /** `albino build -h` prints exactly this. */
  lemma BuildUsageText()
    ensures UsageText("build", Usage, Options)
         == ("usage: albino build [-s syntax] [-o output] [file]\n" + "\nOptions:\n")
          + (("\t-o" + " name" + "\n\t\tset output file name\n")
             + (("\t-s" + ", --syntax" + " syntax" + "\n\t\tset input file syntax\n")
                + ("\t-h" + ", --help" + "\n")))
  {
    BuildUsageHeader();
    BuildOptionsText();
    OutputOptionLine();
    SyntaxOptionLine();
    HelpFlagLine();
  }

  /**
   * With an input file and `-o`, the Run stage opens the input and resolves
   * the target before the Build stage opens the output; the compiler of that
   * target then reads the input and its bytes reach the output.
   */
  lemma BuildOpensInputBeforeOutput(w: World, tc: Toolchain, s: State, m: Matches)
    requires |w.args| >= 1 && w.getopts(w.args[1..], Options) == Ok(m) && !m.OptPresent("h")
    requires |m.free| > 0 && w.openRead(m.free[0]).Ok?
    requires m.OptStr("o").Some? && w.openWrite(m.OptStr("o").value).Ok?
    requires DetectTarget(m.OptStr("s"), m.free[0]).Some?
    ensures var input, output := File(m.free[0]), File(m.OptStr("o").value);
      var t := DetectTarget(m.OptStr("s"), m.free[0]).value;
      var r := Program(w, tc, s);
      match tc.compile(t, input)
      case Ok(bytes) =>
        r.events == s.events + [Opened(input), Opened(output), Compiled(t, input), Wrote(output, bytes)]
        && r.exitStatus == s.exitStatus
      case Err(_) =>
        r.events == s.events + [Opened(input), Opened(output), Compiled(t, input)]
        && r.exitStatus == 1
  {
  }

  /** An output that cannot be opened: status 1 after the input was opened, nothing compiled. */
  lemma BuildOutputOpenFailure(w: World, tc: Toolchain, s: State, m: Matches)
    requires |w.args| >= 1 && w.getopts(w.args[1..], Options) == Ok(m) && !m.OptPresent("h")
    requires |m.free| > 0 && w.openRead(m.free[0]).Ok?
    requires m.OptStr("o").Some? && w.openWrite(m.OptStr("o").value).Err?
    ensures Program(w, tc, s).events == s.events + [Opened(File(m.free[0]))]
    ensures Program(w, tc, s).exitStatus == 1
  {
  }

  /**
   * No file and no `-s`: stdin is compiled as Whitespace, and the bytecode
   * goes to the `-o` file when one is given and opens, otherwise to stdout.
   */
  lemma BuildFromStdin(w: World, tc: Toolchain, s: State, m: Matches)
    requires |w.args| >= 1 && w.getopts(w.args[1..], Options) == Ok(m) && !m.OptPresent("h")
    requires m.free == [] && m.OptStr("s").None?
    requires m.OptStr("o").Some? ==> w.openWrite(m.OptStr("o").value).Ok?
    ensures var output := if m.OptStr("o").Some? then File(m.OptStr("o").value) else Stdout;
      var opens := if m.OptStr("o").Some? then [Opened(output)] else [];
      var r := Program(w, tc, s);
      match tc.compile(Whitespace, Stdin)
      case Ok(bytes) =>
        r.events == s.events + opens + [Compiled(Whitespace, Stdin), Wrote(output, bytes)]
        && r.exitStatus == s.exitStatus
      case Err(_) =>
        r.events == s.events + opens + [Compiled(Whitespace, Stdin)] && r.exitStatus == 1
  {
    NoExtensionIsWhitespace("");
  }

  /** `build` leaves the exit status alone or sets it to 1. */
  lemma BuildExitStatus(w: World, tc: Toolchain, s: State)
    requires |w.args| >= 1
    ensures Program(w, tc, s).exitStatus in {s.exitStatus, 1}
  {
  }
}

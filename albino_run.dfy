/**
 * src/bin/albino-run.rs: the body of `albino run`. It compiles the source
 * into memory and runs the bytecode on the virtual machine.
 */
module AlbinoRun {
  import opened Wrappers
  import opened Util
  import opened Os
  import opened Whitebase

  const SyntaxMessage := "syntax should be \"asm\", \"bf\", \"dt\", \"ook\" or \"ws\" (default: ws)"

  /** `run`: compile into a memory buffer, then run it; status 1 if the build fails, 2 if the run fails. */
  function RunSpec(buffer: Stream, syntax: Target, tc: Toolchain, s: State): State
  {
    var s1 := s.Log(Compiled(syntax, buffer));
    match tc.compile(syntax, buffer)
    case Err(e) => s1.Println(e).SetExitStatus(1)
    case Ok(bytecode) =>
      var s2 := s1.Log(Executed(bytecode));
      match tc.run(bytecode)
      case Err(e) => s2.Println(e).SetExitStatus(2)
      case Ok(_) => s2
  }

  function HandleErrorSpec(e: IoError, s: State): State
  {
    s.Println(e.message).SetExitStatus(1)
  }

  function ExecSpec(buffer: Stream, target: Option<Target>, tc: Toolchain, s: State): State
  {
    match target
    case Some(t) => RunSpec(buffer, t, tc, s)
    case None => s.Println(SyntaxMessage).SetExitStatus(1)
  }

  method Run(buffer: Stream, syntax: Target, tc: Toolchain, p: Process)
    modifies p
    ensures p.Current() == RunSpec(buffer, syntax, tc, old(p.Current()))
  {
    p.Log(Compiled(syntax, buffer));
    var writer := tc.compile(syntax, buffer);
    match writer {
      case Err(e) =>
        p.Println(e);
        p.SetExitStatus(1);
      case Ok(bytecode) =>
        p.Log(Executed(bytecode));
        match tc.run(bytecode) {
          case Err(e) =>
            p.Println(e);
            p.SetExitStatus(2);
          case Ok(_) =>
        }
    }
  }

  method HandleError(e: IoError, p: Process)
    modifies p
    ensures p.Current() == HandleErrorSpec(e, old(p.Current()))
  {
    p.Println(e.message);
    p.SetExitStatus(1);
  }

  method Exec(buffer: Stream, target: Option<Target>, tc: Toolchain, p: Process)
    modifies p
    ensures p.Current() == ExecSpec(buffer, target, tc, old(p.Current()))
  {
    match target {
      case Some(Assembly) => Run(buffer, Assembly, tc, p);
      case Some(Brainfuck) => Run(buffer, Brainfuck, tc, p);
      case Some(DT) => Run(buffer, DT, tc, p);
      case Some(Ook) => Run(buffer, Ook, tc, p);
      case Some(Whitespace) => Run(buffer, Whitespace, tc, p);
      case None =>
        p.Println(SyntaxMessage);
        p.SetExitStatus(1);
    }
  }

  /**
   * Each target runs its own compiler on the buffer; the machine runs exactly
   * the bytes the compiler produced, and only when compiling succeeded.
   */
  lemma ExecCompilesThenRuns(buffer: Stream, t: Target, tc: Toolchain, s: State)
    ensures var r := ExecSpec(buffer, Some(t), tc, s);
      match tc.compile(t, buffer)
      case Ok(bytecode) => r.events == s.events + [Compiled(t, buffer), Executed(bytecode)]
      case Err(_) => r.events == s.events + [Compiled(t, buffer)]
  {
  }

  /** No target: the accepted syntaxes are printed, status 1, nothing is compiled or run. */
  lemma ExecWithoutTarget(buffer: Stream, tc: Toolchain, s: State)
    ensures var r := ExecSpec(buffer, None, tc, s);
      r.exitStatus == 1 && r.events == s.events && r.stdout == s.stdout + SyntaxMessage + "\n"
  {
  }

  /** Exit policy: 1 for no target or a build failure, 2 for a machine failure, otherwise untouched. */
  lemma ExecExitStatus(buffer: Stream, target: Option<Target>, tc: Toolchain, s: State)
    ensures ExecSpec(buffer, target, tc, s).exitStatus
         == if target.None? then 1
            else match tc.compile(target.value, buffer)
              case Err(_) => 1
              case Ok(bytecode) => if tc.run(bytecode).Err? then 2 else s.exitStatus
  {
  }

  lemma HandleErrorExitStatus(e: IoError, s: State)
    ensures HandleErrorSpec(e, s).exitStatus == 1
    ensures HandleErrorSpec(e, s).events == s.events
  {
  }
}

/** src/bin/albino-run.rs `main`: the body wired through `RunCommand` as `run`. */
module AlbinoRunMain {
  import opened Wrappers
  import opened Util
  import opened Getopts
  import opened Os
  import opened Whitebase
  import opened Command

  const Usage := "[-s syntax] [file]"
  const Options := [SyntaxOption, HelpFlag]

  function Program(w: World, tc: Toolchain, s: State): State
    requires |w.args| >= 1
  {
    ExecSpec("run", Usage, Options, Run(RunBody), w, tc, s)
  }

  method Start(w: World, tc: Toolchain, p: Process)
    requires |w.args| >= 1
    modifies p
    ensures p.Current() == Program(w, tc, old(p.Current()))
  {
    var opts := new OptionList();
    var cmd := NewRunCommand("run", Usage, opts, RunBody);
    assert opts.groups == Options;
    assert cmd.options.groups == Options && cmd.command == "run" && cmd.usage == Usage && cmd.inner == Run(RunBody);
    assert p.Current() == old(p.Current());
    cmd.Exec(w, tc, p);
  }

  /**
   * With an input file: it is opened, compiled with the target resolved from
   * `-s` and its name, and the machine runs exactly the compiler's output.
   */
  lemma RunFromFile(w: World, tc: Toolchain, s: State, m: Matches)
    requires |w.args| >= 1 && w.getopts(w.args[1..], Options) == Ok(m) && !m.OptPresent("h")
    requires |m.free| > 0 && w.openRead(m.free[0]).Ok?
    requires DetectTarget(m.OptStr("s"), m.free[0]).Some?
    ensures var input := File(m.free[0]);
      var t := DetectTarget(m.OptStr("s"), m.free[0]).value;
      var r := Program(w, tc, s);
      match tc.compile(t, input)
      case Ok(bytecode) => r.events == s.events + [Opened(input), Compiled(t, input), Executed(bytecode)]
      case Err(_) => r.events == s.events + [Opened(input), Compiled(t, input)] && r.exitStatus == 1
  {
  }

  /** No file and no `-s`: stdin is compiled as Whitespace. */
  lemma RunFromStdin(w: World, tc: Toolchain, s: State, m: Matches)
    requires |w.args| >= 1 && w.getopts(w.args[1..], Options) == Ok(m) && !m.OptPresent("h")
    requires m.free == [] && m.OptStr("s").None?
    ensures Program(w, tc, s).events[..|s.events| + 1] == s.events + [Compiled(Whitespace, Stdin)]
  {
    NoExtensionIsWhitespace("");
  }

  /** `-h` on a fresh process: usage only, exit status 0, nothing opened or run. */
  lemma RunHelpExitsZero(w: World, tc: Toolchain, m: Matches)
    requires |w.args| >= 1 && w.getopts(w.args[1..], Options) == Ok(m) && m.OptPresent("h")
    ensures Program(w, tc, State(0, "", [])).exitStatus == 0
    ensures Program(w, tc, State(0, "", [])).events == []
  {
  }

  /** `run` leaves the exit status alone, or sets 1 (no build) or 2 (the run failed). */
  lemma RunExitStatus(w: World, tc: Toolchain, s: State)
    requires |w.args| >= 1
    ensures Program(w, tc, s).exitStatus in {s.exitStatus, 1, 2}
  {
  }
}

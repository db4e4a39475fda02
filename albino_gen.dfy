/**
 * src/bin/albino-gen.rs: the body of `albino gen`. It reads bytecode and
 * decompiles it into the syntax resolved for the output.
 */
module AlbinoGen {
  import opened Wrappers
  import opened Util
  import opened Os
  import opened Whitebase

  const SyntaxMessage := "syntax should be \"asm\", \"dt\" or \"ws\" (default: ws)"

  /** `gen`: read the whole input, decompile it; a read or decompile error sets status 1. */
  function GenSpec(input: Stream, output: Stream, syntax: Target, w: World, tc: Toolchain, s: State): State
  {
    match w.readToEnd(input)
    case Err(e) => s.Println(e.message).SetExitStatus(1)
    case Ok(buf) =>
      var s1 := s.Log(Decompiled(syntax, buf));
      match tc.decompile(syntax, buf)
      case Err(e) => s1.Println(e).SetExitStatus(1)
      case Ok(text) => s1.Log(Wrote(output, text))
  }

  function HandleErrorSpec(e: IoError, s: State): State
  {
    s.Println(e.message).SetExitStatus(1)
  }

  /** The syntaxes with a decompiler. */
  predicate Decompilable(t: Target)
  {
    t == Assembly || t == DT || t == Whitespace
  }

  function ExecSpec(reader: Stream, writer: Stream, target: Option<Target>, w: World, tc: Toolchain, s: State): State
  {
    if target.Some? && Decompilable(target.value) then GenSpec(reader, writer, target.value, w, tc, s)
    else s.Println(SyntaxMessage).SetExitStatus(1)
  }

  method Gen(input: Stream, output: Stream, syntax: Target, w: World, tc: Toolchain, p: Process)
    modifies p
    ensures p.Current() == GenSpec(input, output, syntax, w, tc, old(p.Current()))
  {
    match w.readToEnd(input) {
      case Ok(buf) =>
        p.Log(Decompiled(syntax, buf));
        match tc.decompile(syntax, buf) {
          case Err(e) =>
            p.Println(e);
            p.SetExitStatus(1);
          case Ok(text) =>
            p.Log(Wrote(output, text));
        }
      case Err(e) =>
        p.Println(e.message);
        p.SetExitStatus(1);
    }
  }

  method HandleError(e: IoError, p: Process)
    modifies p
    ensures p.Current() == HandleErrorSpec(e, old(p.Current()))
  {
    p.Println(e.message);
    p.SetExitStatus(1);
  }

  method Exec(reader: Stream, writer: Stream, target: Option<Target>, w: World, tc: Toolchain, p: Process)
    modifies p
    ensures p.Current() == ExecSpec(reader, writer, target, w, tc, old(p.Current()))
  {
    match target {
      case Some(Assembly) => Gen(reader, writer, Assembly, w, tc, p);
      case Some(DT) => Gen(reader, writer, DT, w, tc, p);
      case Some(Whitespace) => Gen(reader, writer, Whitespace, w, tc, p);
      case _ =>
        p.Println(SyntaxMessage);
        p.SetExitStatus(1);
    }
  }

  /** Assembly, DT and Whitespace decompile exactly the bytes read, with their own decompiler. */
  lemma ExecDecompilesWithTarget(reader: Stream, writer: Stream, t: Target, w: World, tc: Toolchain, s: State)
    requires t in {Assembly, DT, Whitespace}
    ensures var r := ExecSpec(reader, writer, Some(t), w, tc, s);
      match w.readToEnd(reader)
      case Err(_) => r.events == s.events && r.exitStatus == 1
      case Ok(buf) =>
        match tc.decompile(t, buf)
        case Ok(text) => r.events == s.events + [Decompiled(t, buf), Wrote(writer, text)] && r.exitStatus == s.exitStatus
        case Err(_) => r.events == s.events + [Decompiled(t, buf)] && r.exitStatus == 1
  {
  }

  /** Brainfuck, Ook or no target: the accepted syntaxes are printed, status 1, nothing is read or decompiled. */
  lemma ExecWithoutDecompiler(reader: Stream, writer: Stream, target: Option<Target>, w: World, tc: Toolchain, s: State)
    requires target in {None, Some(Brainfuck), Some(Ook)}
    ensures var r := ExecSpec(reader, writer, target, w, tc, s);
      r.exitStatus == 1 && r.events == s.events && r.stdout == s.stdout + SyntaxMessage + "\n"
  {
  }

  lemma HandleErrorExitStatus(e: IoError, s: State)
    ensures HandleErrorSpec(e, s).exitStatus == 1
    ensures HandleErrorSpec(e, s).events == s.events
  {
  }
}

/** src/bin/albino-gen.rs `main`: the body wired through `GenerateCommand` as `gen`. */
module AlbinoGenMain {
  import opened Wrappers
  import opened Util
  import opened Getopts
  import opened Os
  import opened Whitebase
  import opened Command

  const Usage := "[-s syntax] [-o output] [file]"

  /** The option order GenerateCommand::new produces. */
  const Options := [SyntaxOption, OutputOption, HelpFlag]

  function Program(w: World, tc: Toolchain, s: State): State
    requires |w.args| >= 1
  {
    ExecSpec("gen", Usage, Options, Load(Generate(GenBody)), w, tc, s)
  }

  method Start(w: World, tc: Toolchain, p: Process)
    requires |w.args| >= 1
    modifies p
    ensures p.Current() == Program(w, tc, old(p.Current()))
  {
    var opts := new OptionList();
    var cmd := NewGenerateCommand("gen", Usage, opts, GenBody);
    assert opts.groups == Options;
    assert cmd.options.groups == Options && cmd.command == "gen" && cmd.usage == Usage && cmd.inner == Load(Generate(GenBody));
    assert p.Current() == old(p.Current());
    cmd.Exec(w, tc, p);
  }

  /**
   * The syntax is resolved from `-s` and the OUTPUT name: `-o prog.asm`
   * decompiles to Assembly whatever the input file is called.
   */
  lemma GenTargetFromOutputName(w: World, tc: Toolchain, s: State, m: Matches, prefix: string)
    requires |w.args| >= 1 && w.getopts(w.args[1..], Options) == Ok(m) && !m.OptPresent("h")
    requires |m.free| > 0 && w.openRead(m.free[0]).Ok?
    requires m.OptStr("s").None? && m.OptStr("o") == Some(prefix + ".asm")
    requires w.openWrite(prefix + ".asm").Ok? && w.readToEnd(File(m.free[0])).Ok?
    ensures var buf := w.readToEnd(File(m.free[0])).value;
      var opens := [Opened(File(m.free[0])), Opened(File(prefix + ".asm")), Decompiled(Assembly, buf)];
      match tc.decompile(Assembly, buf)
      case Ok(text) => Program(w, tc, s).events == s.events + opens + [Wrote(File(prefix + ".asm"), text)]
      case Err(_) => Program(w, tc, s).events == s.events + opens
  {
    ExtensionPicksTarget(prefix, "asm");
    assert prefix + "." + "asm" == prefix + ".asm";
  }

  /**
   * No `-s` and no `-o`: whatever the input (the named file or stdin), the
   * bytes read are decompiled as Whitespace and the text goes to stdout.
   */
  lemma GenToStdout(w: World, tc: Toolchain, s: State, m: Matches)
    requires |w.args| >= 1 && w.getopts(w.args[1..], Options) == Ok(m) && !m.OptPresent("h")
    requires m.OptStr("s").None? && m.OptStr("o").None?
    requires |m.free| > 0 ==> w.openRead(m.free[0]).Ok?
    ensures var input := if |m.free| > 0 then File(m.free[0]) else Stdin;
      var opens := if |m.free| > 0 then [Opened(input)] else [];
      var r := Program(w, tc, s);
      match w.readToEnd(input)
      case Ok(buf) =>
        (match tc.decompile(Whitespace, buf)
         case Ok(text) =>
           r.events == s.events + opens + [Decompiled(Whitespace, buf), Wrote(Stdout, text)]
           && r.exitStatus == s.exitStatus
         case Err(_) =>
           r.events == s.events + opens + [Decompiled(Whitespace, buf)] && r.exitStatus == 1)
      case Err(_) => r.events == s.events + opens && r.exitStatus == 1
  {
    NoExtensionIsWhitespace("");
  }

  /** `gen` leaves the exit status alone or sets it to 1. */
  lemma GenExitStatus(w: World, tc: Toolchain, s: State)
    requires |w.args| >= 1
    ensures Program(w, tc, s).exitStatus in {s.exitStatus, 1}
  {
  }
}

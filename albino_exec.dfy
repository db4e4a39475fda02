/**
 * src/bin/albino-exec.rs: the body of `albino exec`. It reads bytecode and
 * runs it on the virtual machine.
 */
module AlbinoExec {
  import opened Wrappers
  import opened Os
  import opened Whitebase

  function HandleErrorSpec(e: IoError, s: State): State
  {
    s.Println(e.message).SetExitStatus(1)
  }

  /** `CommandBody::exec`: read all, run; a read failure goes to handle_error, a machine failure sets 2. */
  function ExecSpec(input: Stream, w: World, tc: Toolchain, s: State): State
  {
    match w.readToEnd(input)
    case Err(e) => HandleErrorSpec(e, s)
    case Ok(buf) =>
      var s1 := s.Log(Executed(buf));
      match tc.run(buf)
      case Err(e) => s1.Println(e).SetExitStatus(2)
      case Ok(_) => s1
  }

  method HandleError(e: IoError, p: Process)
    modifies p
    ensures p.Current() == HandleErrorSpec(e, old(p.Current()))
  {
    p.Println(e.message);
    p.SetExitStatus(1);
  }

  method Exec(input: Stream, w: World, tc: Toolchain, p: Process)
    modifies p
    ensures p.Current() == ExecSpec(input, w, tc, old(p.Current()))
  {
    match w.readToEnd(input) {
      case Ok(buf) =>
        p.Log(Executed(buf));
        match tc.run(buf) {
          case Err(e) =>
            p.Println(e);
            p.SetExitStatus(2);
          case Ok(_) =>
        }
      case Err(e) =>
        HandleError(e, p);
    }
  }

  /** The machine runs exactly the bytes read; a read failure runs nothing. */
  lemma ExecRunsWhatWasRead(input: Stream, w: World, tc: Toolchain, s: State)
    ensures var r := ExecSpec(input, w, tc, s);
      match w.readToEnd(input)
      case Ok(buf) => r.events == s.events + [Executed(buf)]
      case Err(_) => r.events == s.events
  {
  }

  /** Exit policy: 1 for a read failure, 2 for a machine failure, otherwise untouched. */
  lemma ExecExitStatus(input: Stream, w: World, tc: Toolchain, s: State)
    ensures ExecSpec(input, w, tc, s).exitStatus
         == match w.readToEnd(input)
            case Err(_) => 1
            case Ok(buf) => if tc.run(buf).Err? then 2 else s.exitStatus
  {
  }

  /** An I/O failure reported by a stage: status 1, nothing else happens. */
  lemma HandleErrorExitStatus(e: IoError, s: State)
    ensures HandleErrorSpec(e, s).exitStatus == 1
    ensures HandleErrorSpec(e, s).events == s.events
  {
  }
}

/** src/bin/albino-exec.rs `main`: the body wired through `LoadCommand` as `exec`. */
module AlbinoExecMain {
  import opened Wrappers
  import opened Getopts
  import opened Os
  import opened Whitebase
  import opened Command

  const Usage := "[file]"

  /** LoadCommand adds nothing: `-h` is the only option. */
  const Options := [HelpFlag]

  function Program(w: World, tc: Toolchain, s: State): State
    requires |w.args| >= 1
  {
    ExecSpec("exec", Usage, Options, Load(ExecBody), w, tc, s)
  }

  method Start(w: World, tc: Toolchain, p: Process)
    requires |w.args| >= 1
    modifies p
    ensures p.Current() == Program(w, tc, old(p.Current()))
  {
    var opts := new OptionList();
    var cmd := NewLoadCommand("exec", Usage, opts, ExecBody);
    assert opts.groups == Options;
    assert cmd.options.groups == Options && cmd.command == "exec" && cmd.usage == Usage && cmd.inner == Load(ExecBody);
    assert p.Current() == old(p.Current());
    cmd.Exec(w, tc, p);
  }

  /** `albino exec -h` prints exactly this. */
  lemma ExecUsageText()
    ensures UsageText("exec", Usage, Options)
         == ("usage: albino exec [file]\n" + "\nOptions:\n") + ("\t-h" + ", --help" + "\n")
  {
    HelpFlagLine();
    assert Options[1..] == [];
    assert OptionsText(Options) == OptionLine(HelpFlag);
    assert UsageHeader("exec", Usage) == "usage: albino exec [file]\n" + "\nOptions:\n";
  }

  /** The machine runs exactly the bytes read from the file (or stdin); no syntax is resolved. */
  lemma ExecRunsInput(w: World, tc: Toolchain, s: State, m: Matches)
    requires |w.args| >= 1 && w.getopts(w.args[1..], Options) == Ok(m) && !m.OptPresent("h")
    requires |m.free| > 0 ==> w.openRead(m.free[0]).Ok?
    ensures var input := if |m.free| > 0 then File(m.free[0]) else Stdin;
      var opens := if |m.free| > 0 then [Opened(input)] else [];
      var r := Program(w, tc, s);
      match w.readToEnd(input)
      case Ok(buf) => r.events == s.events + opens + [Executed(buf)]
      case Err(_) => r.events == s.events + opens && r.exitStatus == 1
  {
  }

  /** `exec` leaves the exit status alone, or sets 1 (I/O) or 2 (the run failed). */
  lemma ExecExitStatus(w: World, tc: Toolchain, s: State)
    requires |w.args| >= 1
    ensures Program(w, tc, s).exitStatus in {s.exitStatus, 1, 2}
  {
  }
}

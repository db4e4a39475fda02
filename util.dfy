/**
 * src/util.rs: the target syntaxes and `detect_target`, which picks one from
 * an explicit `-s` token or, failing that, from the file name's extension.
 */
module Util {
  import opened Wrappers

  datatype Target = Assembly | Brainfuck | DT | Ook | Whitespace

  /**
   * `s.split(sep).collect()`: the pieces between the separators, in order.
   * As in Rust, the empty string yields one empty piece and a trailing
   * separator yields a trailing empty piece.
   */
  function Split(s: string, sep: char): (r: seq<string>)
    ensures |r| >= 1
    ensures forall i :: 0 <= i < |r| ==> sep !in r[i]
    decreases |s|
  {
    if s == [] then [""]
    else
      var rest := Split(s[1..], sep);
      if s[0] == sep then [""] + rest
      else [[s[0]] + rest[0]] + rest[1..]
  }

  /** The pieces glued back together with the separator between them. */
  function Join(parts: seq<string>, sep: char): string
  {
    if |parts| == 0 then ""
    else if |parts| == 1 then parts[0]
    else parts[0] + [sep] + Join(parts[1..], sep)
  }

  function Last<T>(s: seq<T>): T
    requires |s| > 0
  {
    s[|s| - 1]
  }

  /**
   * Mirrors `detect_target` branch by branch. The result is unresolved
   * exactly when an unrecognised token is given: without a token the file
   * name always yields a target, Whitespace being the fallback.
   */
  function DetectTarget(option: Option<string>, filename: string): (r: Option<Target>)
    ensures r.None? <==> option.Some? && option.value !in {"asm", "bf", "dt", "ook", "ws"}
  {
    match option
    case Some(val) =>
      if val == "asm" then Some(Assembly)
      else if val == "bf" then Some(Brainfuck)
      else if val == "dt" then Some(DT)
      else if val == "ook" then Some(Ook)
      else if val == "ws" then Some(Whitespace)
      else None
    case None =>
      var comps := Split(filename, '.');
      if |comps| < 2 then Some(Whitespace)
      else
        var ext := Last(comps);
        if ext == "asm" then Some(Assembly)
        else if ext == "bf" then Some(Brainfuck)
        else if ext == "dt" then Some(DT)
        else if ext == "ook" then Some(Ook)
        else Some(Whitespace)
  }

  // ---------------------------------------------------------------------
  // Split and Join

  /** Joining the pieces of a split gives back the original string. */
  lemma {:induction false} JoinSplit(s: string, sep: char)
    ensures Join(Split(s, sep), sep) == s
    decreases |s|
  {
    if s != [] {
      JoinSplit(s[1..], sep);
      var rest := Split(s[1..], sep);
      if s[0] == sep {
        assert Split(s, sep) == [""] + rest;
        assert ([""] + rest)[1..] == rest;
      } else if |rest| == 1 {
        assert Split(s, sep) == [[s[0]] + rest[0]];
      } else {
        var parts := Split(s, sep);
        assert parts == [[s[0]] + rest[0]] + rest[1..];
        assert parts[1..] == rest[1..];
        assert Join(rest, sep) == rest[0] + [sep] + Join(rest[1..], sep);
        assert s == [s[0]] + s[1..];
      }
    }
  }

  /** A string without the separator is a single piece. */
  lemma {:induction false} SplitNoSeparator(s: string, sep: char)
    requires sep !in s
    ensures Split(s, sep) == [s]
    decreases |s|
  {
    if s != [] {
      SplitNoSeparator(s[1..], sep);
      assert s == [s[0]] + s[1..];
    }
  }

  /** One step of `Split`: the first character either closes a piece or extends the first one. */
  lemma SplitCons(c: char, t: string, sep: char)
    ensures Split([c] + t, sep)
         == if c == sep then [""] + Split(t, sep)
            else [[c] + Split(t, sep)[0]] + Split(t, sep)[1..]
  {
    assert ([c] + t)[1..] == t;
  }

  /** Splitting at one separator splits the two sides independently. */
  lemma {:induction false} SplitAround(a: string, b: string, sep: char)
    ensures Split(a + [sep] + b, sep) == Split(a, sep) + Split(b, sep)
    decreases |a|
  {
    if a == [] {
      assert a + [sep] + b == [sep] + b;
      SplitCons(sep, b, sep);
    } else {
      SplitAround(a[1..], b, sep);
      assert a == [a[0]] + a[1..];
      assert a + [sep] + b == [a[0]] + a[1..] + [sep] + b;
      SplitAroundStep(a[0], a[1..], b, sep);
    }
  }

  /** The inductive step of `SplitAround`, for a first character `c`. */
  lemma SplitAroundStep(c: char, a: string, b: string, sep: char)
    requires Split(a + [sep] + b, sep) == Split(a, sep) + Split(b, sep)
    ensures Split([c] + a + [sep] + b, sep) == Split([c] + a, sep) + Split(b, sep)
  {
    var t := a + [sep] + b;
    assert [c] + a + [sep] + b == [c] + t;
    SplitCons(c, t, sep);
    SplitCons(c, a, sep);
    ConsAppend(c == sep, [c], Split(a, sep), Split(b, sep));
  }

  /** How `SplitCons` distributes over a split that is itself a concatenation. */
  lemma ConsAppend(closes: bool, first: string, ra: seq<string>, rb: seq<string>)
    requires |ra| >= 1
    ensures (if closes then [""] + (ra + rb) else [first + (ra + rb)[0]] + (ra + rb)[1..])
         == (if closes then [""] + ra else [first + ra[0]] + ra[1..]) + rb
  {
    if !closes {
      assert (ra + rb)[1..] == ra[1..] + rb;
    }
  }

  /** Splitting the pieces joined back is the identity on separator-free pieces. */
  lemma {:induction false} SplitJoin(parts: seq<string>, sep: char)
    requires |parts| >= 1
    requires forall i :: 0 <= i < |parts| ==> sep !in parts[i]
    ensures Split(Join(parts, sep), sep) == parts
    decreases |parts|
  {
    if |parts| == 1 {
      SplitNoSeparator(parts[0], sep);
    } else {
      SplitNoSeparator(parts[0], sep);
      SplitJoin(parts[1..], sep);
      SplitAround(parts[0], Join(parts[1..], sep), sep);
      assert parts == [parts[0]] + parts[1..];
    }
  }

  /** There are at least two pieces exactly when the separator occurs. */
  lemma SplitHasTwoPieces(s: string, sep: char)
    ensures |Split(s, sep)| >= 2 <==> sep in s
  {
    if sep in s {
      var i :| 0 <= i < |s| && s[i] == sep;
      assert s == s[..i] + [sep] + s[i + 1..];
      SplitAround(s[..i], s[i + 1..], sep);
    } else {
      SplitNoSeparator(s, sep);
    }
  }

  /** The last piece is whatever follows the last separator. */
  lemma SplitLastPiece(prefix: string, ext: string, sep: char)
    requires sep !in ext
    ensures |Split(prefix + [sep] + ext, sep)| >= 2
    ensures Last(Split(prefix + [sep] + ext, sep)) == ext
  {
    SplitAround(prefix, ext, sep);
    SplitNoSeparator(ext, sep);
  }

  // ---------------------------------------------------------------------
  // detect_target

  /** An explicit token picks its target whatever the file name says. */
  lemma ExplicitTokenWins(filename: string)
    ensures DetectTarget(Some("asm"), filename) == Some(Assembly)
    ensures DetectTarget(Some("bf"), filename) == Some(Brainfuck)
    ensures DetectTarget(Some("dt"), filename) == Some(DT)
    ensures DetectTarget(Some("ook"), filename) == Some(Ook)
    ensures DetectTarget(Some("ws"), filename) == Some(Whitespace)
  {
  }

  /** Any other explicit token, case variants included, is unresolved: it never falls through to the extension. */
  lemma ExplicitTokenUnknown(token: string, filename: string)
    requires token !in {"asm", "bf", "dt", "ook", "ws"}
    ensures DetectTarget(Some(token), filename) == None
  {
  }

  /** With no token, a name without a dot (the empty name included) is Whitespace. */
  lemma NoExtensionIsWhitespace(filename: string)
    requires '.' !in filename
    ensures DetectTarget(None, filename) == Some(Whitespace)
  {
    SplitNoSeparator(filename, '.');
  }

  /** With no token, the text after the last dot picks the target; anything unrecognised is Whitespace. */
  lemma ExtensionPicksTarget(prefix: string, ext: string)
    requires '.' !in ext
    ensures ext == "asm" ==> DetectTarget(None, prefix + "." + ext) == Some(Assembly)
    ensures ext == "bf" ==> DetectTarget(None, prefix + "." + ext) == Some(Brainfuck)
    ensures ext == "dt" ==> DetectTarget(None, prefix + "." + ext) == Some(DT)
    ensures ext == "ook" ==> DetectTarget(None, prefix + "." + ext) == Some(Ook)
    ensures ext !in {"asm", "bf", "dt", "ook"} ==> DetectTarget(None, prefix + "." + ext) == Some(Whitespace)
  {
    assert prefix + "." + ext == prefix + ['.'] + ext;
    SplitLastPiece(prefix, ext, '.');
  }

  /** Worked cases: a name with several dots, a name that is only an extension. */
  lemma ExtensionExamples()
    ensures DetectTarget(None, "a.b.ook") == Some(Ook)
    ensures DetectTarget(None, ".bf") == Some(Brainfuck)
  {
    assert "a.b.ook" == "a.b" + "." + "ook";
    ExtensionPicksTarget("a.b", "ook");
    assert ".bf" == "" + "." + "bf";
    ExtensionPicksTarget("", "bf");
  }

  /** Worked cases of the catch-all: an empty extension, an unknown one, no name at all. */
  lemma DefaultExamples()
    ensures DetectTarget(None, "prog.") == Some(Whitespace)
    ensures DetectTarget(None, "prog.txt") == Some(Whitespace)
    ensures DetectTarget(None, "") == Some(Whitespace)
  {
    assert "prog." == "prog" + "." + "";
    ExtensionPicksTarget("prog", "");
    assert "prog.txt" == "prog" + "." + "txt";
    ExtensionPicksTarget("prog", "txt");
    NoExtensionIsWhitespace("");
  }

  /** Worked cases of explicit tokens overriding the extension. */
  lemma ExplicitExamples()
    ensures DetectTarget(Some("bf"), "prog.ws") == Some(Brainfuck)
    ensures DetectTarget(Some("BF"), "prog.bf") == None
    ensures DetectTarget(Some("xyz"), "prog.bf") == None
  {
    ExplicitTokenWins("prog.ws");
    ExplicitTokenUnknown("BF", "prog.bf");
    ExplicitTokenUnknown("xyz", "prog.bf");
  }
}

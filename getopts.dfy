/**
 * The parts of the getopts crate the core relies on: option descriptors as
 * built by `optflag`/`optopt`, and the parsed `Matches`. Parsing itself is an
 * oracle of the process environment (see Os.World).
 */
module Getopts {
  import opened Wrappers

  /** Whether an option takes an argument. */
  datatype HasArg = Yes | No | Maybe

  /** An option descriptor: `-short`, `--long`, the argument hint and the help text. */
  datatype OptGroup = OptGroup(shortName: string, longName: string, hint: string, desc: string, hasarg: HasArg)

  /** `optflag(short, long, desc)`: a flag without an argument. */
  function OptFlag(short: string, long: string, desc: string): OptGroup
  {
    OptGroup(short, long, "", desc, No)
  }

  /** `optopt(short, long, desc, hint)`: an option with a required argument. */
  function OptOpt(short: string, long: string, desc: string, hint: string): OptGroup
  {
    OptGroup(short, long, hint, desc, Yes)
  }

  /** Parse results: each option seen, with its argument if any, and the free arguments in order. */
  datatype Matches = Matches(values: map<string, Option<string>>, free: seq<string>)
  {
    predicate OptPresent(name: string)
    {
      name in values
    }

    function OptStr(name: string): Option<string>
    {
      if name in values then values[name] else None
    }
  }
}

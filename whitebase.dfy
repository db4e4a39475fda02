/**
 * The whitebase crate, seen from the core: one compiler and one decompiler
 * per syntax and the bytecode machine, each succeeding with bytes or failing
 * with the text of its error. Their behaviour is not part of this model.
 */
module Whitebase {
  import opened Wrappers
  import opened Util
  import opened Os

  datatype Toolchain = Toolchain(
    compile: (Target, Stream) -> Result<seq<byte>, string>,
    decompile: (Target, seq<byte>) -> Result<seq<byte>, string>,
    run: seq<byte> -> Result<(), string>)
}

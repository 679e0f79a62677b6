/** Small shared datatypes. */
module Prelude {
  datatype Option<+T> = None | Some(value: T)

  const U32_SIZE: nat := 0x1_0000_0000
  const U64_SIZE: nat := 0x1_0000_0000_0000_0000

  function DivCeil(a: nat, b: nat): nat
    requires b > 0
  {
    (a + b - 1) / b
  }
}

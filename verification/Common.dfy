/** Values shared by every component of the model. */
module Common {

  datatype Option<+T> = None | Some(value: T)

  type byte = b: int | 0 <= b < 256

  type Bytes = seq<byte>

  /** Line feed and carriage return. */
  const LF: byte := 10
  const CR: byte := 13

  const U64_MAX: nat := 0xFFFF_FFFF_FFFF_FFFF

  /** Limits on a recorded event (crates/model/src/event.rs). */
  const MAX_INSERTED_TEXT_BYTES := 256 * 1024
  const MAX_VECTOR_ITEMS := 1024

  function Min(a: int, b: int): int {
    if a <= b then a else b
  }

  function Max(a: int, b: int): int {
    if a >= b then a else b
  }

  /** Subtraction of unsigned integers that stops at zero. */
  function SaturatingSub(a: nat, b: nat): nat {
    if a >= b then a - b else 0
  }

  /** Addition of 64-bit unsigned integers that stops at the greatest one. */
  function SaturatingAdd(a: nat, b: nat): nat {
    if a + b > U64_MAX then U64_MAX else a + b
  }
}

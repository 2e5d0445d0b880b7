/** Types and digits that several modules share. */
module Basics {

  datatype Option<T> = None | Some(value: T)

  newtype Byte = i: int | 0 <= i < 0x100

  type Bytes = seq<Byte>

  predicate IsHex(b: Byte) {
    48 <= b <= 57 || 65 <= b <= 70 || 97 <= b <= 102
  }

  function HexDigit(b: Byte): (n: nat)
    requires IsHex(b)
    ensures n < 16
  {
    if b <= 57 then b as int - 48 else if b <= 70 then b as int - 55 else b as int - 87
  }
}

// Small helpers.
module Common {
  const UINT32: nat := 0x1_0000_0000

  type Uint32 = n: nat | n < UINT32

  function Min(a: int, b: int): int {
    if a < b then a else b
  }

  function Max(a: int, b: int): int {
    if a > b then a else b
  }

  function One(c: bool): nat {
    if c then 1 else 0
  }

  function ToSet<T>(s: seq<T>): set<T> {
    set x | x in s
  }
}

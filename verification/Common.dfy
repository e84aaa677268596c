/** What several modules need: optional values and division as BigInt does it. */
module Common {

  datatype Option<T> = None | Some(value: T)

  /** BigInt division rounds toward zero. */
  function Truncated(n: int, d: int): int
    requires d != 0
  {
    if (n >= 0) == (d > 0) then Magnitude(n) / Magnitude(d) else 0 - Magnitude(n) / Magnitude(d)
  }

  function Magnitude(n: int): nat {
    if n >= 0 then n else 0 - n
  }

  lemma Associates<T>(a: seq<T>, b: seq<T>, c: seq<T>)
    ensures a + (b + c) == (a + b) + c
  {
  }
}

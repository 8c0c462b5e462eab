/** Go's integer division and remainder, which round toward zero. */
module Integers {
  function TruncDiv(a: int, b: int): int
    requires b > 0
  {
    if a >= 0 then a / b else -((-a) / b)
  }

  function TruncMod(a: int, b: int): int
    requires b > 0
  {
    a - b * TruncDiv(a, b)
  }

  lemma {:induction false} SmallMultiple(d: int, t: int)
    requires d > 0 && -d < d * t < d
    ensures t == 0
  {
    if t >= 1 {
      AtLeastOne(d, t);
    } else if t <= -1 {
      AtLeastOne(d, -t);
    }
  }

  lemma {:induction false} AtLeastOne(d: int, t: int)
    requires d > 0 && t >= 1
    ensures d * t >= d
  {}
}

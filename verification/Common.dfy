/** Vocabulary every other module speaks in: the two sides, a point on the map,
    a value held once per side, and the usual optional and fallible results. */
module Common {

  datatype Option<+T> = None | Some(value: T)

  datatype Result<+T, +E> = Ok(value: T) | Err(error: E)

  datatype Side = North | South

  function Opposing(side: Side): (other: Side)
    ensures other != side && (other == North || other == South)
  {
    if side == North then South else North
  }

  datatype Vec2 = Vec2(x: real, y: real)

  /** A dictionary keyed by both sides. */
  datatype PerSide<+T> = PerSide(north: T, south: T) {

    function At(side: Side): T {
      if side == North then north else south
    }

    function With(side: Side, value: T): PerSide<T> {
      if side == North then PerSide(value, south) else PerSide(north, value)
    }

    function Swapped(): PerSide<T> {
      PerSide(south, north)
    }
  }

  function Both<T>(value: T): PerSide<T> {
    PerSide(value, value)
  }

  /** Whether every value of the second is no larger than its fellow in the first. */
  predicate NoneRises(before: PerSide<real>, after: PerSide<real>) {
    after.north <= before.north && after.south <= before.south
  }

  function Min(a: real, b: real): real {
    if b < a then b else a
  }

  function Max(a: real, b: real): real {
    if b > a then b else a
  }

  /** Python's `round`: to the nearest, halves to even. */
  function Round(x: real): (n: int)
    ensures n as real - 0.5 <= x <= n as real + 0.5
  {
    var whole := x.Floor;
    var rest := x - whole as real;
    if rest < 0.5 then whole
    else if rest > 0.5 then whole + 1
    else if whole % 2 == 0 then whole else whole + 1
  }
}

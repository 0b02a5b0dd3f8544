/** Python's `random` module as an oracle: a fixed stream of draws that each
    call consumes in turn.  Any sequence of in-range choices is produced by
    some stream, so properties proved for every stream hold whatever the
    generator returns. */
module Randomness {
  import opened Values

  class Random {
    /** The raw value of each draw, by draw number. */
    const stream: nat -> nat
    /** How many draws have been consumed. */
    var draws: nat

    constructor (stream: nat -> nat)
      ensures this.stream == stream && draws == 0
    {
      this.stream := stream;
      draws := 0;
    }

    /** The index the draw numbered `k` selects among `n` candidates. */
    function Pick(k: nat, n: nat): (i: nat)
      requires n > 0
      ensures i < n
    {
      stream(k) % n
    }

    /** `random.choice(s)`: raises IndexError on an empty list without
        consuming a draw. */
    method Choice<T>(s: seq<T>) returns (r: Result<T>)
      modifies this
      ensures s == [] ==> r == Err(IndexError) && draws == old(draws)
      ensures s != [] ==> r == Ok(s[Pick(old(draws), |s|)]) && draws == old(draws) + 1
    {
      if |s| == 0 {
        return Err(IndexError);
      }
      r := Ok(s[Pick(draws, |s|)]);
      draws := draws + 1;
    }

    /** `random.randint(a, b)`, both ends included: raises ValueError on an
        empty range without consuming a draw. */
    method RandInt(a: int, b: int) returns (r: Result<int>)
      modifies this
      ensures b < a ==> r == Err(ValueError) && draws == old(draws)
      ensures a <= b ==> r == Ok(a + Pick(old(draws), b - a + 1)) && draws == old(draws) + 1
      ensures r.Ok? ==> a <= r.value <= b
    {
      if b < a {
        return Err(ValueError);
      }
      r := Ok(a + Pick(draws, b - a + 1));
      draws := draws + 1;
    }
  }
}

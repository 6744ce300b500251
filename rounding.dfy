/** `KinesisTest#initialize`'s rounding of the requested record count to a multiple of the
    thread count (app.rb:19-20), and the per-thread batch count `publish` derives from it
    (app.rb:71). */
module Rounding {
  import opened Types

  /** Ruby's `Integer#/`: the quotient rounded toward negative infinity. Dafny's `/` rounds
      so that the remainder is never negative, which differs when `b` is negative. */
  function FloorDiv(a: int, b: int): (q: int)
    requires b != 0
    ensures b > 0 ==> b * q <= a < b * q + b
    ensures b < 0 ==> b * q + b < a <= b * q
  {
    if b > 0 then a / b else (-a) / (-b)
  }

  /** A multiple of a positive `b` that lies in `[0, b)` is zero. */
  lemma SmallMultiple(b: int, d: int)
    requires b > 0 && 0 <= b * d < b
    ensures d == 0
  {
  }

  /** The quotient of an exact multiple is its factor. */
  lemma FloorDivOfMultiple(q: int, b: int)
    requires b != 0
    ensures FloorDiv(q * b, b) == q
  {
    var r := FloorDiv(q * b, b);
    if b > 0 {
      assert b * r <= q * b < b * r + b;
      assert b * (q - r) == q * b - b * r;
      SmallMultiple(b, q - r);
    } else {
      assert b * r + b < q * b <= b * r;
      assert (-b) * (r - q) == q * b - b * r;
      SmallMultiple(-b, r - q);
    }
  }

  /** `(iterations / publisher_thread_count).ceil * publisher_thread_count`. `Integer#ceil`
      returns the integer itself, so only the floored quotient is multiplied back: the count
      rounds down for a positive thread count and up for a negative one. A zero thread count
      raises. */
  function RoundIterations(requested: int, threads: int): (r: Result<int>)
    ensures threads == 0 <==> r.Err?
    ensures r.Err? ==> r.error == ZeroDivisionError
    ensures threads > 0 ==> r.Ok? && r.value <= requested < r.value + threads
    ensures threads < 0 ==> r.Ok? && r.value + threads < requested <= r.value
    ensures r.Ok? ==> FloorDiv(r.value, threads) * threads == r.value
  {
    if threads == 0 then Err(ZeroDivisionError)
    else
      var q := FloorDiv(requested, threads);
      FloorDivOfMultiple(q, threads);
      Ok(q * threads)
  }

  /** The `batch_count` of every publishing thread: the stored (already rounded) count
      divided again by the thread count, which gives back the first quotient. */
  lemma BatchCountOfRounded(requested: int, threads: int)
    requires threads != 0
    ensures FloorDiv(RoundIterations(requested, threads).value, threads) == FloorDiv(requested, threads)
  {
  }

  /** The default configuration (app.rb:5-6) stores 198, not 201; 10 records on 3 threads
      give 9, not 12. The quotient is floored for either sign, so a negative request on a
      positive thread count rounds down, and a negative thread count rounds up. */
  lemma RoundingExamples()
    ensures RoundIterations(200, 3) == Ok(198)
    ensures RoundIterations(10, 3) == Ok(9)
    ensures RoundIterations(-10, 3) == Ok(-12)
    ensures RoundIterations(10, -3) == Ok(12)
  {
  }
}

/**
 * The JavaScript values the aggregation works with: optional fields, numbers
 * that may be NaN, the raw scalars that `parseFloat` is applied to, and the
 * NaN-propagating sum that `+=` performs on them.
 */
module Values {

  datatype Option<+T> = None | Some(value: T)

  /** A JavaScript number as the aggregation sees it: NaN or a finite value. */
  datatype Num = NaN | Val(v: real)

  /**
   * A raw scalar as it comes out of the CSV parser or the JSON configuration:
   * a missing field, a piece of text, or a JSON number.
   */
  datatype Raw = Undefined | Text(s: string) | Number(n: real)

  /**
   * `parseFloat` applied to a raw scalar. The string-prefix parser itself is
   * the parameter `parse`; a JSON number parses to itself and a missing field
   * parses to NaN.
   */
  function ParseFloat(parse: string -> Num, x: Raw): (r: Num)
    ensures x.Undefined? ==> r == NaN
    ensures x.Number? ==> r == Val(x.n)
  {
    match x
    case Undefined => NaN
    case Text(s) => parse(s)
    case Number(n) => Val(n)
  }

  /** JavaScript `+` on numbers: NaN in either operand makes the sum NaN. */
  function Add(x: Num, y: Num): (r: Num)
    ensures r == NaN <==> x == NaN || y == NaN
    ensures x.Val? && y.Val? ==> r.v == x.v + y.v
  {
    if x.Val? && y.Val? then Val(x.v + y.v) else NaN
  }

  /**
   * The running sum `s = 0; s += x` over `xs` in order. It is NaN exactly when
   * one of the summands is NaN: a single NaN poisons it for good.
   */
  function Sum(xs: seq<Num>): (r: Num)
    ensures r == NaN <==> NaN in xs
  {
    if xs == [] then Val(0.0)
    else
      assert xs == xs[..|xs| - 1] + [xs[|xs| - 1]];
      Add(Sum(xs[..|xs| - 1]), xs[|xs| - 1])
  }

  /** The values of `xs` added up as reals, for sums without a NaN in them. */
  function RealSum(xs: seq<Num>): real
    requires NaN !in xs
  {
    if xs == [] then 0.0 else RealSum(xs[..|xs| - 1]) + xs[|xs| - 1].v
  }

  /** Without a NaN, the running sum is the ordinary sum of the values. */
  lemma {:induction false} SumOfNumbers(xs: seq<Num>)
    requires NaN !in xs
    ensures Sum(xs) == Val(RealSum(xs))
  {
    if xs != [] {
      assert xs == xs[..|xs| - 1] + [xs[|xs| - 1]];
      SumOfNumbers(xs[..|xs| - 1]);
    }
  }

  /** Summing a sequence with one more element adds that element. */
  lemma SumSnoc(xs: seq<Num>, x: Num)
    ensures Sum(xs + [x]) == Add(Sum(xs), x)
  {
    assert (xs + [x])[..|xs|] == xs;
  }
}

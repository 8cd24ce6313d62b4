/** Small vocabulary shared by the modules of this project. */
module Common {
  datatype Option<+T> = None | Some(value: T)

  /** Number.MAX_SAFE_INTEGER: the largest integer the validators call safe. */
  const MAX_SAFE_INTEGER: nat := 9_007_199_254_740_991

  lemma Product(x: real, a: real, b: real)
    requires x >= 0.0 && a <= b
    ensures x * a <= x * b
  {
    assert x * (b - a) >= 0.0;
  }

  /** A factor of at most `most`, either way, of something not negative. */
  lemma Scaled(x: real, factor: real, most: real)
    requires x >= 0.0 && -most <= factor <= most
    ensures -(x * most) <= x * factor == factor * x <= x * most
  {
    Product(x, -most, factor);
    Product(x, factor, most);
  }
}

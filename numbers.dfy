/** Fixed-width integers of the source and the abstraction of float parsing. */
module Numbers {
  import opened Wrappers

  /** Rust's `u64`. */
  type U64 = x: int | 0 <= x < 0x1_0000_0000_0000_0000

  /** Rust's `str::parse::<f64>`, kept abstract: `None` where the text is not a float.
      IEEE doubles are modelled as mathematical reals. */
  type FloatParser = string -> Option<real>

  /** `text.parse().unwrap_or(0.0)`: the parsed value, or 0.0 when parsing fails. */
  function ParseOrZero(parse: FloatParser, text: string): real {
    parse(text).GetOr(0.0)
  }

  function Min(a: int, b: int): int { if a <= b then a else b }
  function Max(a: int, b: int): int { if a >= b then a else b }
}

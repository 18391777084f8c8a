/** Shared value types of the storefront: optional values, results with an error
    message, and the catalog product as the core reads it. */
module Common {

  /** An absent or present value (`undefined`/`null` or a value in the source). */
  datatype Option<T> = None | Some(value: T)

  /** The `{ success, error }` and `{ success, user }` shapes of the source. */
  datatype Result<T> = Ok(value: T) | Err(error: string) {
    predicate IsOk() { Ok? }
  }

  /** A catalog product. Only the fields the core reads are kept: the price is in
      integer cents and the rating in tenths of a star (4.8 stars is 48). */
  datatype Product = Product(id: string, name: string, price: int, category: string, stock: int, rating: int)

  function Min(a: int, b: int): int { if a <= b then a else b }
  function Max(a: int, b: int): int { if a >= b then a else b }

  /** JavaScript's `s.slice(begin, end)`: a negative bound counts from the end,
      bounds are clamped to the list, and a begin at or after the end gives `[]`. */
  function Slice<T>(s: seq<T>, begin: int, end: int): (r: seq<T>)
    ensures 0 <= begin <= end <= |s| ==> r == s[begin..end]
    ensures 0 <= end <= begin ==> r == []
    ensures |r| <= |s|
  {
    var b := if begin < 0 then Max(|s| + begin, 0) else Min(begin, |s|);
    var e := if end < 0 then Max(|s| + end, 0) else Min(end, |s|);
    if b >= e then [] else s[b..e]
  }
}

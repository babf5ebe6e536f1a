/** Display helpers shared by the dashboard and the analysis page: the
    three-colour band that the score and rating colour functions pick from,
    and the five-star row drawn as `[...Array(5)].map((_, i) => i < rating)`. */
module Presentation {

  /** The colour band of a score or a rating: the green, yellow and red
      Tailwind classes of the source, without the class strings. */
  datatype Band = Green | Yellow | Red

  /** Orders the bands from worst (0) to best (2). */
  function Rank(b: Band): (n: nat)
    ensures n <= 2
    ensures n == 2 <==> b == Green
    ensures n == 0 <==> b == Red
  {
    match b
    case Red => 0
    case Yellow => 1
    case Green => 2
  }

  /** Number of stars in every star row. */
  const StarCount := 5

  /** `[...Array(5)].map((_, i) => i < rating)`: star `i` is filled exactly
      when `i < rating`. */
  function StarRow(rating: int): (stars: seq<bool>)
    ensures |stars| == StarCount
  {
    seq(StarCount, i => i < rating)
  }

  /** `rating` clamped to the range `lo..hi`. */
  function Clamp(rating: int, lo: int, hi: int): (c: int)
    requires lo <= hi
    ensures lo <= c <= hi
    ensures lo <= rating <= hi ==> c == rating
    ensures rating < lo ==> c == lo
    ensures hi < rating ==> c == hi
  {
    if rating < lo then lo else if rating > hi then hi else rating
  }

  /** Number of filled stars in a row. */
  function Filled(stars: seq<bool>): (n: nat)
    ensures n <= |stars|
  {
    if stars == [] then 0
    else Filled(stars[..|stars| - 1]) + (if stars[|stars| - 1] then 1 else 0)
  }

  /** The first `n` stars of a row for `rating` hold `min(max(rating, 0), n)`
      filled stars. */
  lemma {:induction false} FilledPrefix(rating: int, n: nat)
    requires n <= StarCount
    ensures Filled(StarRow(rating)[..n]) == Clamp(rating, 0, n)
  {
    if n > 0 {
      var row := StarRow(rating);
      assert row[..n][..n - 1] == row[..n - 1];
      FilledPrefix(rating, n - 1);
    }
  }

  /** A star row always has five stars, its filled stars come first, and it
      holds the rating clamped to 0..5 of them. */
  lemma StarRowFilled(rating: int)
    ensures |StarRow(rating)| == StarCount
    ensures Filled(StarRow(rating)) == Clamp(rating, 0, StarCount)
    ensures forall i, j :: 0 <= i < j < StarCount && StarRow(rating)[j] ==> StarRow(rating)[i]
  {
    var row := StarRow(rating);
    assert row[..StarCount] == row;
    FilledPrefix(rating, StarCount);
  }
}

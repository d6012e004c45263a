/**
 * The five-star rating input both review forms draw: star `k` (1 to 5) is
 * drawn filled when `k <= rating`, and clicking it sets the rating to `k`.
 */
module Stars {

  /** The fill of stars `star` to 5, in order. */
  function RowFrom(star: int, rating: int): (row: seq<bool>)
    requires 1 <= star <= 6
    ensures |row| == 6 - star
    ensures forall i :: 0 <= i < |row| ==> (row[i] <==> star + i <= rating)
    decreases 6 - star
  {
    if star == 6 then [] else [star <= rating] + RowFrom(star + 1, rating)
  }

  /** The fill of the five stars for a rating. */
  function Row(rating: int): (row: seq<bool>)
    ensures |row| == 5
  {
    RowFrom(1, rating)
  }

  /** The number of filled stars. */
  function FilledCount(row: seq<bool>): (n: nat)
    ensures n <= |row|
    decreases |row|
  {
    if row == [] then 0 else (if row[0] then 1 else 0) + FilledCount(row[1..])
  }

  lemma {:induction false} FilledFrom(star: int, rating: int)
    requires 1 <= star <= 6 && 1 <= rating <= 5
    ensures FilledCount(RowFrom(star, rating)) == if rating < star then 0 else rating - star + 1
    decreases 6 - star
  {
    if star < 6 {
      var row := RowFrom(star, rating);
      assert row[1..] == RowFrom(star + 1, rating);
      FilledFrom(star + 1, rating);
    }
  }

  /**
   * For a rating of 1 to 5, exactly `rating` stars are filled and they are
   * the first ones, so the row shows the rating unambiguously.
   */
  lemma RowShowsRating(rating: int)
    requires 1 <= rating <= 5
    ensures FilledCount(Row(rating)) == rating
    ensures forall i, j :: 0 <= j <= i < 5 && Row(rating)[i] ==> Row(rating)[j]
  {
    FilledFrom(1, rating);
  }

  /** Two ratings of 1 to 5 never draw the same row. */
  lemma RowInjective(r1: int, r2: int)
    requires 1 <= r1 <= 5 && 1 <= r2 <= 5 && Row(r1) == Row(r2)
    ensures r1 == r2
  {
    RowShowsRating(r1);
    RowShowsRating(r2);
  }
}

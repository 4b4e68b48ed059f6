/**
 * `renderStars`, which the company card and the partner card each define
 * with the same code: five stars for the values 1 to 5, star `i` filled when
 * `i <= rating`, followed by the rating itself in parentheses.
 */
module StarRating {

  /** What the row shows: which of the five stars are filled, and the rating printed beside them. */
  datatype StarRow = StarRow(filled: seq<bool>, shownRating: real)

  /** The literal list the stars are mapped from. */
  const StarValues: seq<int> := [1, 2, 3, 4, 5]

  function RenderStars(rating: real): (row: StarRow)
    ensures |row.filled| == 5
    ensures forall i :: 0 <= i < 5 ==> (row.filled[i] <==> (i + 1) as real <= rating)
    ensures row.shownRating == rating
  {
    StarRow(seq(5, i requires 0 <= i < 5 => StarValues[i] as real <= rating), rating)
  }

  /** The number of filled stars in a row. */
  function CountFilled(stars: seq<bool>): nat
    decreases |stars|
  {
    if |stars| == 0 then 0 else (if stars[0] then 1 else 0) + CountFilled(stars[1..])
  }

  /** `min(5, max(0, k))` */
  function ClampStars(k: int): nat
  {
    if k < 0 then 0 else if k > 5 then 5 else k
  }

  /** The filled stars always come first: a filled star has only filled stars before it. */
  lemma FilledPrefix(rating: real, i: int, j: int)
    requires 0 <= j < i < 5 && RenderStars(rating).filled[i]
    ensures RenderStars(rating).filled[j]
  {
  }

  /** A rating of 5 or more fills every star; a rating below 1 fills none. */
  lemma FullAndEmpty(rating: real)
    ensures rating >= 5.0 ==> forall i :: 0 <= i < 5 ==> RenderStars(rating).filled[i]
    ensures rating < 1.0 ==> forall i :: 0 <= i < 5 ==> !RenderStars(rating).filled[i]
  {
  }

  lemma {:induction false} CountPrefix(stars: seq<bool>, k: nat)
    requires k <= |stars|
    requires forall i :: 0 <= i < |stars| ==> (stars[i] <==> i < k)
    ensures CountFilled(stars) == k
    decreases |stars|
  {
    if |stars| > 0 {
      var k' := if k == 0 then 0 else k - 1;
      forall i | 0 <= i < |stars| - 1 ensures stars[1..][i] <==> i < k' {
        assert stars[1..][i] == stars[i + 1];
      }
      CountPrefix(stars[1..], k');
    }
  }

  /** The number of filled stars is the rating rounded down, held within 0 .. 5. */
  lemma FilledCount(rating: real)
    ensures CountFilled(RenderStars(rating).filled) == ClampStars(rating.Floor)
  {
    var row := RenderStars(rating);
    var k := ClampStars(rating.Floor);
    forall i | 0 <= i < 5 ensures row.filled[i] <==> i < k {
      assert (i + 1) as real <= rating <==> i + 1 <= rating.Floor;
    }
    CountPrefix(row.filled, k);
  }
}

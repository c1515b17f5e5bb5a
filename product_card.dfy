/**
 * The two display rules of a product card: the star rating built by
 * `renderStars` (full stars, an optional half star, then empty stars) and the
 * dietary tags cut to three with a `+N` overflow badge. Ratings are exact reals.
 */
module ProductCard {
  import opened Wrappers
  import opened JsStrings

  datatype Star = Full | Half | Empty

  /** `Math.ceil`. */
  function Ceil(x: real): (r: int)
    ensures x <= r as real < x + 1.0
  {
    -((-x).Floor)
  }

  /** `rating % 1 !== 0`: the rating is not a whole number. */
  predicate HasHalfStar(rating: real)
  {
    rating != rating.Floor as real
  }

  /** The iteration count of `for (let i = 0; i < n; i++)`: none when `n` is not positive. */
  function Times(n: int): nat
  {
    if n < 0 then 0 else n
  }

  /** How many stars of each kind `renderStars` pushes. */
  function FullCount(rating: real): nat { Times(rating.Floor) }
  function HalfCount(rating: real): nat { if HasHalfStar(rating) then 1 else 0 }
  function EmptyCount(rating: real): nat { Times(5 - Ceil(rating)) }

  /** `n` copies of one star. */
  function Repeat(star: Star, n: nat): (r: seq<Star>)
    ensures |r| == n && forall k :: 0 <= k < n ==> r[k] == star
  {
    seq(n, _ => star)
  }

  /** The row of stars a rating is drawn as: full stars, then an optional half star, then empty stars. */
  function Stars(rating: real): seq<Star>
  {
    Repeat(Full, FullCount(rating)) + (if HasHalfStar(rating) then [Half] else []) + Repeat(Empty, EmptyCount(rating))
  }

  /**
   * `renderStars(rating)`: `floor(rating)` full stars, one half star when the rating is
   * not whole, then `5 - ceil(rating)` empty stars, each count taken as zero when negative.
   */
  method RenderStars(rating: real) returns (stars: seq<Star>)
    ensures stars == Stars(rating)
  {
    stars := [];
    var fullStars := rating.Floor;
    var hasHalfStar := rating != fullStars as real;
    var i: nat := 0;
    while i < fullStars
      invariant i <= Times(fullStars)
      invariant stars == Repeat(Full, i)
    {
      stars := stars + [Full];
      i := i + 1;
    }
    assert stars == Repeat(Full, FullCount(rating));
    if hasHalfStar {
      stars := stars + [Half];
    }
    var head := stars;
    var remainingStars := 5 - Ceil(rating);
    i := 0;
    while i < remainingStars
      invariant i <= Times(remainingStars)
      invariant stars == head + Repeat(Empty, i)
    {
      stars := stars + [Empty];
      i := i + 1;
    }
  }

  /** Each position of the row holds the star its place calls for: full, then half, then empty. */
  lemma StarsLayout(rating: real)
    ensures |Stars(rating)| == FullCount(rating) + HalfCount(rating) + EmptyCount(rating)
    ensures forall i :: 0 <= i < |Stars(rating)| ==> (Stars(rating)[i] == Full <==> i < FullCount(rating))
    ensures forall i :: 0 <= i < |Stars(rating)| ==>
              (Stars(rating)[i] == Half <==> HasHalfStar(rating) && i == FullCount(rating))
    ensures forall i :: 0 <= i < |Stars(rating)| ==>
              (Stars(rating)[i] == Empty <==> i >= FullCount(rating) + HalfCount(rating))
  {
  }

  /** On the 0..5 scale the three counts always add up to five stars. */
  lemma FiveStarsOnScale(rating: real)
    ensures 0.0 <= rating <= 5.0 ==> |Stars(rating)| == 5
  {
    StarsLayout(rating);
    if 0.0 <= rating <= 5.0 {
      if HasHalfStar(rating) {
        assert rating.Floor as real < rating;
        assert Ceil(rating) == rating.Floor + 1;
      } else {
        assert Ceil(rating) == rating.Floor;
      }
    }
  }

  /** `tags.slice(0, 3)`: the first three tags, or all of them when there are fewer. */
  function VisibleTags(tags: seq<string>): (r: seq<string>)
    ensures |r| == if |tags| < 3 then |tags| else 3
    ensures r == tags[..|r|]
  {
    if |tags| <= 3 then tags else tags[..3]
  }

  /** The `+N` badge, shown only when there are more than three tags. */
  function OverflowBadge(tags: seq<string>): (r: Option<string>)
    ensures r.Some? <==> |tags| > 3
  {
    if |tags| > 3 then Some("+" + NatToString(|tags| - 3)) else None
  }

  /**
   * The visible tags and the badge account for every tag: the badge reads `+N` with
   * `N` the number of tags left out.
   */
  lemma TagsAccounted(tags: seq<string>)
    ensures OverflowBadge(tags).None? ==> VisibleTags(tags) == tags
    ensures OverflowBadge(tags).Some? ==>
              var b := OverflowBadge(tags).value;
              |b| >= 2 && b[0] == '+' && DecimalValue(b[1..]) + |VisibleTags(tags)| == |tags|
  {
    if |tags| > 3 {
      var b := OverflowBadge(tags).value;
      assert b[1..] == NatToString(|tags| - 3);
      DecimalRoundTrip(|tags| - 3);
    }
  }
}

/** Rating tiers of AtCoder: the colour code and CSS class of a rating, and
    the Topcoder-like circle badge drawn for a team rating. */
module Tiers {

  /** The nine colour bands, in increasing order of rating. */
  datatype Band = Unrated | Gray | Brown | Green | Cyan | Blue | Yellow | Orange | Red

  /** Position of a band in the order of the bands, 0 for unrated up to 8 for red. */
  function Rank(b: Band): (k: nat)
    ensures k <= 8
  {
    match b
    case Unrated => 0
    case Gray => 1
    case Brown => 2
    case Green => 3
    case Cyan => 4
    case Blue => 5
    case Yellow => 6
    case Orange => 7
    case Red => 8
  }

  /** The band of rank k. */
  function BandAt(k: nat): (b: Band)
    requires k <= 8
    ensures Rank(b) == k
  {
    [Unrated, Gray, Brown, Green, Cyan, Blue, Yellow, Orange, Red][k]
  }

  /** Reference classification, stated arithmetically: a positive rating lies in
      the 400-point step numbered by its quotient by 400, capped at red from 2800
      on; a rating of 0 or less is unrated. */
  function BandOf(rating: real): (b: Band)
    ensures rating <= 0.0 <==> b == Unrated
  {
    if rating <= 0.0 then Unrated
    else if rating >= 2800.0 then Red
    else BandAt((rating / 400.0).Floor + 1)
  }

  /** The colour code the script assigns to each band. */
  function BandColor(b: Band): string {
    match b
    case Unrated => "#000000"
    case Gray => "#808080"
    case Brown => "#804000"
    case Green => "#008000"
    case Cyan => "#00C0C0"
    case Blue => "#0000FF"
    case Yellow => "#C0C000"
    case Orange => "#FF8000"
    case Red => "#FF0000"
  }

  /** The CSS class the script assigns to each band. */
  function BandClass(b: Band): string {
    match b
    case Unrated => "user-unrated"
    case Gray => "user-gray"
    case Brown => "user-brown"
    case Green => "user-green"
    case Cyan => "user-cyan"
    case Blue => "user-blue"
    case Yellow => "user-yellow"
    case Orange => "user-orange"
    case Red => "user-red"
  }

  /** getColorCode: the threshold chain of the script. */
  function ColorCode(rating: real): string {
    if rating <= 0.0 then "#000000"
    else if rating < 400.0 then "#808080"
    else if rating < 800.0 then "#804000"
    else if rating < 1200.0 then "#008000"
    else if rating < 1600.0 then "#00C0C0"
    else if rating < 2000.0 then "#0000FF"
    else if rating < 2400.0 then "#C0C000"
    else if rating < 2800.0 then "#FF8000"
    else "#FF0000"
  }

  /** getSpanClass: the second threshold chain of the script. */
  function SpanClass(rating: real): string {
    if rating <= 0.0 then "user-unrated"
    else if rating < 400.0 then "user-gray"
    else if rating < 800.0 then "user-brown"
    else if rating < 1200.0 then "user-green"
    else if rating < 1600.0 then "user-cyan"
    else if rating < 2000.0 then "user-blue"
    else if rating < 2400.0 then "user-yellow"
    else if rating < 2800.0 then "user-orange"
    else "user-red"
  }

  /** Both threshold chains classify by the arithmetic band: the colour and
      the class of a rating are those of its band. */
  lemma ChainsFollowBand(rating: real)
    ensures ColorCode(rating) == BandColor(BandOf(rating))
    ensures SpanClass(rating) == BandClass(BandOf(rating))
  {
  }

  lemma BandColorInjective(a: Band, b: Band)
    ensures BandColor(a) == BandColor(b) <==> a == b
  {
    if BandColor(a) == BandColor(b) {
      assert BandColor(a)[1] == BandColor(b)[1] && BandColor(a)[3] == BandColor(b)[3];
      assert BandColor(a)[5] == BandColor(b)[5];
    }
  }

  lemma BandClassInjective(a: Band, b: Band)
    ensures BandClass(a) == BandClass(b) <==> a == b
  {
    if BandClass(a) == BandClass(b) {
      assert |BandClass(a)| == |BandClass(b)| && BandClass(a)[5] == BandClass(b)[5];
    }
  }

  /** The two chains never disagree: two ratings get the same colour code
      exactly when they get the same class, exactly when they share a band. */
  lemma ColorAndClassAgree(r1: real, r2: real)
    ensures ColorCode(r1) == ColorCode(r2) <==> BandOf(r1) == BandOf(r2)
    ensures SpanClass(r1) == SpanClass(r2) <==> BandOf(r1) == BandOf(r2)
  {
    ChainsFollowBand(r1);
    ChainsFollowBand(r2);
    BandColorInjective(BandOf(r1), BandOf(r2));
    BandClassInjective(BandOf(r1), BandOf(r2));
  }

  /** A higher rating never lands in a lower band. */
  lemma BandMonotone(r1: real, r2: real)
    requires r1 <= r2
    ensures Rank(BandOf(r1)) <= Rank(BandOf(r2))
  {
    if 0.0 < r1 && r2 < 2800.0 {
      assert r1 / 400.0 <= r2 / 400.0;
    }
  }

  /** A rating of 0 or less is coloured black and classed unrated, and any
      positive rating is not. */
  lemma UnratedAtOrBelowZero(rating: real)
    ensures rating <= 0.0 <==> SpanClass(rating) == "user-unrated"
    ensures rating <= 0.0 <==> ColorCode(rating) == "#000000"
  {
    ColorAndClassAgree(rating, 0.0);
  }

  /** Neighbouring ratings on either side of a threshold are told apart, and
      0 is unrated. */
  lemma Boundaries()
    ensures SpanClass(0.0) == "user-unrated" && ColorCode(0.0) == "#000000"
    ensures BandOf(399.0) == Gray && BandOf(400.0) == Brown
    ensures BandOf(2799.0) == Orange && BandOf(2800.0) == Red
    ensures SpanClass(399.0) != SpanClass(400.0) && ColorCode(399.0) != ColorCode(400.0)
    ensures SpanClass(2799.0) != SpanClass(2800.0) && ColorCode(2799.0) != ColorCode(2800.0)
  {
    ChainsFollowBand(399.0);
    ChainsFollowBand(400.0);
    ColorAndClassAgree(399.0, 400.0);
    ColorAndClassAgree(2799.0, 2800.0);
  }

  /** Truncation toward zero, the rounding of JavaScript's `%`. */
  function Trunc(x: real): (t: int)
    ensures 0.0 <= x ==> t as real <= x < t as real + 1.0
    ensures x < 0.0 ==> t as real - 1.0 < x <= t as real
  {
    if x >= 0.0 then x.Floor else -((-x).Floor)
  }

  /** JavaScript's `rating % 400` on numbers: the remainder keeps the sign of
      the dividend (a floating-point `fmod`, which is exact). */
  function Rem400(rating: real): (m: real)
    ensures 0.0 <= rating ==> 0.0 <= m < 400.0
    ensures rating < 0.0 ==> -400.0 < m <= 0.0
    ensures ((rating - m) / 400.0).Floor as real == (rating - m) / 400.0
  {
    var q := Trunc(rating / 400.0);
    assert (rating - (rating - 400.0 * q as real)) / 400.0 == q as real;
    rating - 400.0 * q as real
  }

  /** The badge of a team rating: a legend marker, or a circle of the band's
      colour filled up to the given percentage. */
  datatype Circle = GoldLegend | SilverLegend | Filled(color: string, fill: real)

  /** generateTopcoderLikeCircle, with the inline style reduced to the marker it
      draws. The `100` arm of the fill expression is kept as written; the
      contract shows that it is never taken. */
  function TopcoderLikeCircle(rating: real): (c: Circle)
    ensures c == GoldLegend <==> rating >= 3600.0
    ensures c == SilverLegend <==> 3200.0 <= rating < 3600.0
    ensures c.Filled? <==> rating < 3200.0
    ensures c.Filled? ==> c.color == BandColor(BandOf(rating)) && c.fill == Rem400(rating) / 4.0
  {
    ChainsFollowBand(rating);
    if rating >= 3600.0 then GoldLegend
    else if rating >= 3200.0 then SilverLegend
    else
      var ccode := ColorCode(rating);
      var fillRatio := if rating >= 3200.0 then 100.0 else Rem400(rating) / 4.0;
      Filled(ccode, fillRatio)
  }

  /** Below 3200 the fill is the progress, in percent, through the 400-point
      step the rating lies in: 0 at the step's lower end, below 100 at its top. */
  lemma FillIsProgressInStep(rating: real, k: nat)
    requires k < 8 && 400.0 * k as real <= rating < 400.0 * (k + 1) as real
    ensures TopcoderLikeCircle(rating).Filled?
    ensures TopcoderLikeCircle(rating).fill == (rating - 400.0 * k as real) / 4.0
    ensures 0.0 <= TopcoderLikeCircle(rating).fill < 100.0
  {
    var q := Rem400(rating);
    var j := ((rating - q) / 400.0).Floor;
    assert rating - q == 400.0 * j as real;
    assert j == k by {
      assert 400.0 * j as real <= rating < 400.0 * (j + 1) as real;
    }
  }

  /** Every non-negative rating below 3200 gets a fill in [0, 100), and the
      fill is 0 at each multiple of 400. */
  lemma FillRange(rating: real)
    requires 0.0 <= rating < 3200.0
    ensures TopcoderLikeCircle(rating).Filled?
    ensures 0.0 <= TopcoderLikeCircle(rating).fill < 100.0
    ensures (rating / 400.0).Floor as real == rating / 400.0 ==> TopcoderLikeCircle(rating).fill == 0.0
  {
    var k := (rating / 400.0).Floor;
    assert 0 <= k < 8;
    assert 400.0 * k as real <= rating < 400.0 * (k + 1) as real;
    FillIsProgressInStep(rating, k as nat);
  }
}

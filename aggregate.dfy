/** The team rating: a fixed 20-step bisection over [0, 10000] for the rating
    at which an opponent's joint chance of beating every member crosses 1/2,
    rounded half up to an integer.

    The win probability `6 ** ((rb - ra) / 400)` of the script is a parameter
    `p` here, so nothing about its numeric values is claimed; where a lemma
    needs its shape, it says so with `WinModel`. The bracket ends are real
    numbers: every one of them is a multiple of 10000 / 2^20 in [0, 10000], so
    the double-precision arithmetic of the script computes them exactly. */
module Aggregate {

  /** A win-probability function: p(ra, rb) is the chance that a player of
      rating ra beats one of rating rb. */
  type WinProbability = (real, real) -> real

  const Lo: real := 0.0
  const Hi: real := 10000.0
  const Steps: nat := 20

  /** The width of the bracket after n rounds, (Hi - Lo) / 2^n. */
  function Width(n: nat): (w: real)
    ensures 0.0 < w <= Hi - Lo
  {
    if n == 0 then Hi - Lo else Width(n - 1) / 2.0
  }

  /** 2^n */
  function Pow2(n: nat): (k: nat)
    ensures k >= 1
  {
    if n == 0 then 1 else 2 * Pow2(n - 1)
  }

  /** Width(n) is the initial width over 2^n. */
  lemma {:induction false} WidthIsPower(n: nat)
    ensures Width(n) * Pow2(n) as real == Hi - Lo
  {
    if n > 0 {
      WidthIsPower(n - 1);
      var w, q := Width(n - 1), Pow2(n - 1) as real;
      assert (w / 2.0) * (2.0 * q) == w * q;
    }
  }

  /** The chance that an opponent of rating r beats every member, multiplied
      up member by member from the left as the inner loop does. */
  function Product(p: WinProbability, r: real, team: seq<real>): real
  {
    if team == [] then 1.0
    else Product(p, r, team[..|team| - 1]) * p(r, team[|team| - 1])
  }

  /** The test of the bisection: the joint chance is below one half, so the
      crossing point lies above r. */
  predicate Below(p: WinProbability, team: seq<real>, r: real) {
    Product(p, r, team) < 0.5
  }

  datatype Bracket = Bracket(left: real, right: real)

  function Mid(b: Bracket): real {
    (b.left + b.right) / 2.0
  }

  /** One round of the loop: move the lower end up to the midpoint when the
      joint chance there is below one half, the upper end down otherwise. The
      new bracket lies inside the old one and is half as wide; one end is
      kept, and an end that moved lies on its side of the test. */
  function Step(p: WinProbability, team: seq<real>, b: Bracket): (b': Bracket)
    ensures b'.right - b'.left == (b.right - b.left) / 2.0
    ensures b.left <= b.right ==> b.left <= b'.left <= b'.right <= b.right
    ensures b'.left == b.left || (b'.right == b.right && Below(p, team, b'.left))
    ensures b'.right == b.right || (b'.left == b.left && !Below(p, team, b'.right))
  {
    var r := Mid(b);
    if Below(p, team, r) then Bracket(r, b.right) else Bracket(b.left, r)
  }

  /** The bracket after n rounds: inside [Lo, Hi] and Width(n) wide. */
  function Search(p: WinProbability, team: seq<real>, n: nat): (b: Bracket)
    ensures Lo <= b.left <= b.right <= Hi
    ensures b.right - b.left == Width(n)
  {
    if n == 0 then Bracket(Lo, Hi) else Step(p, team, Search(p, team, n - 1))
  }

  /** Math.floor(x + 0.5): the nearest integer, halves rounded up. */
  function RoundHalfUp(x: real): (k: int)
    ensures x - 0.5 < k as real <= x + 0.5
  {
    (x + 0.5).Floor
  }

  /** aggregateRatings as a value: the rounded midpoint of the final bracket. */
  function AggregateRating(p: WinProbability, team: seq<real>): (agg: int)
    ensures 0 <= agg <= 10000
  {
    RoundHalfUp(Mid(Search(p, team, Steps)))
  }

  /** aggregateRatings (with getWinProbability passed in as p). */
  method AggregateRatings(p: WinProbability, team: seq<real>) returns (agg: int)
    ensures agg == AggregateRating(p, team)
    ensures 0 <= agg <= 10000
  {
    var left := 0.0;
    var right := 10000.0;
    for i := 0 to 20
      invariant Bracket(left, right) == Search(p, team, i)
    {
      var r := (left + right) / 2.0;
      var rWinsProbability := 1.0;
      for j := 0 to |team|
        invariant rWinsProbability == Product(p, r, team[..j])
      {
        assert team[..j + 1][..j] == team[..j];
        rWinsProbability := rWinsProbability * p(r, team[j]);
      }
      assert team[..|team|] == team;
      if rWinsProbability < 0.5 {
        left := r;
      } else {
        right := r;
      }
    }
    agg := ((left + right) / 2.0 + 0.5).Floor;
  }

  /** Across rounds the lower end never moves down and the upper end never
      moves up. */
  lemma {:induction false} SearchNested(p: WinProbability, team: seq<real>, i: nat, j: nat)
    requires i <= j
    ensures Search(p, team, i).left <= Search(p, team, j).left
    ensures Search(p, team, j).right <= Search(p, team, i).right
  {
    if i < j {
      SearchNested(p, team, i, j - 1);
    }
  }

  /** Whatever p is, the lower end is 0 or a rating where the joint chance is
      below one half, and the upper end is 10000 or a rating where it is not. */
  lemma {:induction false} SearchSeparates(p: WinProbability, team: seq<real>, n: nat)
    ensures Search(p, team, n).left == Lo || Below(p, team, Search(p, team, n).left)
    ensures Search(p, team, n).right == Hi || !Below(p, team, Search(p, team, n).right)
  {
    if n > 0 {
      SearchSeparates(p, team, n - 1);
      assert Search(p, team, n) == Step(p, team, Search(p, team, n - 1));
    }
  }

  /** If the test flips at c, from true below c to false above it, and c starts
      in [0, 10000], then c stays inside the bracket at every round. */
  lemma {:induction false} SearchKeepsCrossing(p: WinProbability, team: seq<real>, c: real, n: nat)
    requires Lo <= c <= Hi
    requires forall x :: x < c ==> Below(p, team, x)
    requires forall x :: x > c ==> !Below(p, team, x)
    ensures Search(p, team, n).left <= c <= Search(p, team, n).right
  {
    if n > 0 {
      SearchKeepsCrossing(p, team, c, n - 1);
    }
  }

  /** The width of the final bracket, 10000 / 2^20. */
  const FinalWidth: real := 10000.0 / 1048576.0

  lemma WidthSteps()
    ensures Width(Steps) == FinalWidth
  {
    assert Width(10) == 10000.0 / 1024.0;
  }

  lemma FinalBracketWidth(p: WinProbability, team: seq<real>)
    ensures Search(p, team, Steps).right - Search(p, team, Steps).left == FinalWidth
  {
    WidthSteps();
  }

  /** With a crossing point c, the team rating is an integer within
      1/2 + 10000 / 2^21 of c. */
  lemma AggregateNearCrossing(p: WinProbability, team: seq<real>, c: real)
    requires Lo <= c <= Hi
    requires forall x :: x < c ==> Below(p, team, x)
    requires forall x :: x > c ==> !Below(p, team, x)
    ensures c - 0.5 - FinalWidth / 2.0 < AggregateRating(p, team) as real <= c + 0.5 + FinalWidth / 2.0
  {
    SearchKeepsCrossing(p, team, c, Steps);
    FinalBracketWidth(p, team);
  }

  /** An empty team: the product stays 1, the test never holds, the lower end
      stays at 0 and the rating is 0. */
  lemma {:induction false} EmptyTeamSearch(p: WinProbability, n: nat)
    ensures forall r :: !Below(p, [], r)
    ensures Search(p, [], n).left == 0.0
  {
    if n > 0 {
      EmptyTeamSearch(p, n - 1);
      assert !Below(p, [], Mid(Search(p, [], n - 1)));
    }
  }

  lemma EmptyTeam(p: WinProbability)
    ensures AggregateRating(p, []) == 0
  {
    EmptyTeamSearch(p, Steps);
    FinalBracketWidth(p, []);
  }

  /** The shape of the win probability the bisection relies on: a chance in
      (0, 1) that grows with one's own rating and shrinks with the opponent's. */
  ghost predicate WinModel(p: WinProbability) {
    && (forall a, b :: 0.0 < p(a, b) < 1.0)
    && (forall a, a', b :: a <= a' ==> p(a, b) <= p(a', b))
    && (forall a, b, b' :: b <= b' ==> p(a, b') <= p(a, b))
  }

  lemma WinRange(p: WinProbability, a: real, b: real)
    requires WinModel(p)
    ensures 0.0 < p(a, b) < 1.0
  {
  }

  /** Products of non-negative factors grow with their factors. */
  lemma MulMonotone(q: real, q': real, w: real, w': real)
    requires 0.0 <= q <= q' && 0.0 <= w <= w'
    ensures q * w <= q' * w'
  {
    assert q * w <= q' * w by {
      assert (q' - q) * w >= 0.0;
    }
    assert q' * w <= q' * w' by {
      assert q' * (w' - w) >= 0.0;
    }
  }

  lemma MulPositive(q: real, w: real)
    requires 0.0 < q && 0.0 < w
    ensures 0.0 < q * w
  {
  }

  /** The product over a team is the product over all but its last member,
      times the last member's factor. */
  lemma ProductLast(p: WinProbability, r: real, team: seq<real>)
    requires team != []
    ensures Product(p, r, team) == Product(p, r, team[..|team| - 1]) * p(r, team[|team| - 1])
  {
  }

  lemma {:induction false} ProductBounds(p: WinProbability, r: real, team: seq<real>)
    requires WinModel(p)
    ensures 0.0 < Product(p, r, team) <= 1.0
  {
    if team != [] {
      var init := team[..|team| - 1];
      ProductBounds(p, r, init);
      ProductLast(p, r, team);
      var q, w := Product(p, r, init), p(r, team[|team| - 1]);
      WinRange(p, r, team[|team| - 1]);
      MulPositive(q, w);
      MulMonotone(q, 1.0, w, 1.0);
    }
  }

  /** A stronger opponent has a better joint chance. */
  lemma {:induction false} ProductGrowsWithOpponent(p: WinProbability, r: real, r': real, team: seq<real>)
    requires WinModel(p) && r <= r'
    ensures Product(p, r, team) <= Product(p, r', team)
  {
    if team != [] {
      var init, last := team[..|team| - 1], team[|team| - 1];
      ProductGrowsWithOpponent(p, r, r', init);
      ProductBounds(p, r, init);
      ProductLast(p, r, team);
      ProductLast(p, r', team);
      var w, w' := p(r, last), p(r', last);
      assert 0.0 < w <= w';
      MulMonotone(Product(p, r, init), Product(p, r', init), w, w');
    }
  }

  /** The search direction is the right one: the test holds on a downward
      closed set of ratings, so it flips at most once along [0, 10000]. */
  lemma BelowDownwardClosed(p: WinProbability, team: seq<real>, x: real, y: real)
    requires WinModel(p) && x <= y && Below(p, team, y)
    ensures Below(p, team, x)
  {
    ProductGrowsWithOpponent(p, x, y, team);
  }

  /** Under the win model the final bracket splits the ratings: every rating
      up to a moved lower end passes the test, every rating from a moved upper
      end on fails it. */
  lemma FinalBracketSplits(p: WinProbability, team: seq<real>, x: real)
    requires WinModel(p)
    ensures var b := Search(p, team, Steps);
      (Lo < b.left && x <= b.left ==> Below(p, team, x)) &&
      (b.right < Hi && b.right <= x ==> !Below(p, team, x))
  {
    var b := Search(p, team, Steps);
    SearchSeparates(p, team, Steps);
    if Lo < b.left && x <= b.left {
      BelowDownwardClosed(p, team, x, b.left);
    }
    if b.right < Hi && b.right <= x && Below(p, team, x) {
      BelowDownwardClosed(p, team, b.right, x);
    }
  }

  /** Two bisections whose tests are ordered (the first implies the second)
      either share their bracket or the first lies wholly below the second. */
  lemma {:induction false} SearchOrdered(p: WinProbability, t1: seq<real>, t2: seq<real>, n: nat)
    requires forall x :: Below(p, t1, x) ==> Below(p, t2, x)
    ensures var b1, b2 := Search(p, t1, n), Search(p, t2, n);
      b1 == b2 || b1.right <= b2.left
  {
    if n > 0 {
      SearchOrdered(p, t1, t2, n - 1);
    }
  }

  lemma AggregateOrdered(p: WinProbability, t1: seq<real>, t2: seq<real>)
    requires forall x :: Below(p, t1, x) ==> Below(p, t2, x)
    ensures AggregateRating(p, t1) <= AggregateRating(p, t2)
  {
    SearchOrdered(p, t1, t2, Steps);
  }

  /** Raising members' ratings lowers the opponent's joint chance. */
  lemma {:induction false} ProductShrinksWithMembers(p: WinProbability, r: real, t1: seq<real>, t2: seq<real>)
    requires WinModel(p) && |t1| == |t2|
    requires forall i :: 0 <= i < |t1| ==> t1[i] <= t2[i]
    ensures Product(p, r, t2) <= Product(p, r, t1)
  {
    if t1 != [] {
      var n := |t1| - 1;
      ProductShrinksWithMembers(p, r, t1[..n], t2[..n]);
      ProductBounds(p, r, t2[..n]);
      ProductLast(p, r, t1);
      ProductLast(p, r, t2);
      var w1, w2 := p(r, t1[n]), p(r, t2[n]);
      assert 0.0 < w2 <= w1;
      MulMonotone(Product(p, r, t2[..n]), Product(p, r, t1[..n]), w2, w1);
    }
  }

  /** The team rating never drops when a member's rating rises. */
  lemma AggregateMonotoneInMembers(p: WinProbability, t1: seq<real>, t2: seq<real>)
    requires WinModel(p) && |t1| == |t2|
    requires forall i :: 0 <= i < |t1| ==> t1[i] <= t2[i]
    ensures AggregateRating(p, t1) <= AggregateRating(p, t2)
  {
    forall x | Below(p, t1, x)
      ensures Below(p, t2, x)
    {
      ProductShrinksWithMembers(p, x, t1, t2);
    }
    AggregateOrdered(p, t1, t2);
  }

  /** The team rating never drops when a member joins. */
  lemma AggregateGrowsWithMember(p: WinProbability, team: seq<real>, m: real)
    requires WinModel(p)
    ensures AggregateRating(p, team) <= AggregateRating(p, team + [m])
  {
    forall x | Below(p, team, x)
      ensures Below(p, team + [m], x)
    {
      assert (team + [m])[..|team|] == team;
      ProductBounds(p, x, team);
      ProductLast(p, x, team + [m]);
      var q, w := Product(p, x, team), p(x, m);
      assert 0.0 < w < 1.0;
      MulMonotone(q, q, w, 1.0);
    }
    AggregateOrdered(p, team, team + [m]);
  }
}

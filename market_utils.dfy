// The row classifier of the market table: a credit balance above the
// tolerance is a seller, below minus the tolerance a buyer, otherwise neutral;
// the participant counter and the colour each row is drawn in.

module MarketUtils {
  import opened Common

  /** Default tolerance of the classifier and the counter. */
  const ROW_TOL: real := 0.000001

  datatype Classification = Seller | Buyer | Neutral

  /** First match: above `tol` sells, below `-tol` buys, anything else is
      neutral. */
  function Classify(S: real, tol: real := ROW_TOL): (c: Classification)
    ensures c == Seller <==> S > tol
    ensures c == Buyer <==> !(S > tol) && S < -tol
    ensures c == Neutral <==> !(S > tol) && !(S < -tol)
  {
    if S > tol then Seller
    else if S < -tol then Buyer
    else Neutral
  }

  /** For a non-negative tolerance the two strict tests never both hold, so
      the first-match order does not matter, and neutral is exactly the band
      `|S| <= tol`. */
  lemma ClassifyBands(S: real, tol: real)
    requires tol >= 0.0
    ensures !(S > tol && S < -tol)
    ensures Classify(S, tol) == Buyer <==> S < -tol
    ensures Classify(S, tol) == Neutral <==> Abs(S) <= tol
  {
  }

  /** Called without a tolerance, classification uses the band of one
      millionth around zero. */
  lemma DefaultToleranceBand(S: real)
    ensures Classify(S) == Seller <==> S > 0.000001
    ensures Classify(S) == Buyer <==> S < -0.000001
    ensures Classify(S) == Neutral <==> Abs(S) <= 0.000001
  {
    ClassifyBands(S, ROW_TOL);
  }

  /** With a negative tolerance the band is inverted: every balance strictly
      between `tol` and `-tol` passes both tests and the seller test wins. */
  lemma NegativeToleranceHasNoNeutral(S: real, tol: real)
    requires tol < 0.0
    ensures Classify(S, tol) != Neutral
  {
  }

  /** Number of balances in `xs` that `Classify` puts in class `c`. */
  function CountClass(xs: seq<real>, tol: real, c: Classification): (n: nat)
    ensures n <= |xs|
    decreases |xs|
  {
    if xs == [] then 0
    else CountClass(xs[..|xs| - 1], tol, c) + (if Classify(xs[|xs| - 1], tol) == c then 1 else 0)
  }

  /** One more row adds one to the count of its own class and nothing to the
      others. */
  lemma CountClassSnoc(xs: seq<real>, x: real, tol: real)
    ensures CountClass(xs + [x], tol, Seller) == CountClass(xs, tol, Seller) + (if Classify(x, tol) == Seller then 1 else 0)
    ensures CountClass(xs + [x], tol, Buyer) == CountClass(xs, tol, Buyer) + (if Classify(x, tol) == Buyer then 1 else 0)
    ensures CountClass(xs + [x], tol, Neutral) == CountClass(xs, tol, Neutral) + (if Classify(x, tol) == Neutral then 1 else 0)
  {
    assert (xs + [x])[..|xs|] == xs;
  }

  /** Every balance falls in exactly one class, so the three counts add up to
      the number of rows. */
  lemma {:induction false} CountClassPartition(xs: seq<real>, tol: real)
    ensures CountClass(xs, tol, Seller) + CountClass(xs, tol, Buyer) + CountClass(xs, tol, Neutral) == |xs|
    decreases |xs|
  {
    if xs != [] {
      CountClassPartition(xs[..|xs| - 1], tol);
    }
  }

  /** A class count is positive exactly when some row is in that class. */
  lemma {:induction false} CountClassPositive(xs: seq<real>, tol: real, c: Classification)
    ensures CountClass(xs, tol, c) > 0 <==> exists i :: 0 <= i < |xs| && Classify(xs[i], tol) == c
    decreases |xs|
  {
    if xs != [] {
      var n := |xs| - 1;
      CountClassPositive(xs[..n], tol, c);
      if exists i :: 0 <= i < |xs| && Classify(xs[i], tol) == c {
        var i :| 0 <= i < |xs| && Classify(xs[i], tol) == c;
        if i < n {
          assert xs[..n][i] == xs[i];
        }
      }
      if exists i :: 0 <= i < n && Classify(xs[..n][i], tol) == c {
        var i :| 0 <= i < n && Classify(xs[..n][i], tol) == c;
        assert xs[i] == xs[..n][i];
      }
    }
  }

  datatype ParticipantCounts = ParticipantCounts(sellers: nat, buyers: nat, neutral: nat)

  /** `counts`: one pass over the rows' credit balances, bumping the counter
      of each row's class. */
  method Counts(cccs: seq<real>, tol: real := ROW_TOL) returns (r: ParticipantCounts)
    ensures r.sellers == CountClass(cccs, tol, Seller)
    ensures r.buyers == CountClass(cccs, tol, Buyer)
    ensures r.neutral == CountClass(cccs, tol, Neutral)
    ensures r.sellers + r.buyers + r.neutral == |cccs|
  {
    var sellers, buyers, neutral := 0, 0, 0;
    for i := 0 to |cccs|
      invariant sellers == CountClass(cccs[..i], tol, Seller)
      invariant buyers == CountClass(cccs[..i], tol, Buyer)
      invariant neutral == CountClass(cccs[..i], tol, Neutral)
    {
      assert cccs[..i + 1][..i] == cccs[..i];
      var c := Classify(cccs[i], tol);
      if c == Seller {
        sellers := sellers + 1;
      } else if c == Buyer {
        buyers := buyers + 1;
      } else {
        neutral := neutral + 1;
      }
    }
    assert cccs[..|cccs|] == cccs;
    CountClassPartition(cccs, tol);
    r := ParticipantCounts(sellers, buyers, neutral);
  }

  const SELLER_COLOR: string := "#10B981"
  const BUYER_COLOR: string := "#EF4444"
  const NEUTRAL_COLOR: string := "#9CA3AF"

  /** `colorFor`: green, red or grey by the same tests as `Classify`. */
  function ColorFor(v: real, tol: real): (color: string)
    ensures color == SELLER_COLOR <==> Classify(v, tol) == Seller
    ensures color == BUYER_COLOR <==> Classify(v, tol) == Buyer
    ensures color == NEUTRAL_COLOR <==> Classify(v, tol) == Neutral
  {
    if v > tol then SELLER_COLOR
    else if v < -tol then BUYER_COLOR
    else NEUTRAL_COLOR
  }
}

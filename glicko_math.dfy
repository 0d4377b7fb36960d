/** GlickoMath: the numeric side of one rating update (Glicko2.cpp,
    Single_Run), over mathematical reals.

    What can be stated exactly is the conversion between the rating scale and
    the internal Glicko-2 scale and the branch taken when a player has no
    matches. The rest of the update (the weights g and E, the variance and
    improvement sums, the volatility root-finder) is floating-point numerics
    with loops whose termination rests on convergence; it is the opaque
    `step` of a Numerics value, as is the square root. */
module GlickoMath {

  /** 400 / ln 10: one unit of the internal scale in rating points. */
  const Scale: real := 173.7178
  /** The rating that maps to 0 on the internal scale. */
  const Center: real := 1500.0

  /** A rating on the internal scale: `mu` units of Scale above the centre. */
  function ToMu(rating: real): (mu: real)
    ensures Scale * mu + Center == rating
  {
    (rating - Center) / Scale
  }

  /** A deviation on the internal scale, in units of Scale. */
  function ToPhi(rd: real): (phi: real)
    ensures Scale * phi == rd
  {
    rd / Scale
  }

  /** Converting back undoes ToMu. */
  function FromMu(mu: real): (rating: real)
    ensures ToMu(rating) == mu
  {
    Scale * mu + Center
  }

  /** Converting back undoes ToPhi. */
  function FromPhi(phi: real): (rd: real)
    ensures ToPhi(rd) == phi
  {
    Scale * phi
  }

  lemma ScaleRoundTrip(rating: real, rd: real)
    ensures FromMu(ToMu(rating)) == rating
    ensures FromPhi(ToPhi(rd)) == rd
  {
  }

  /** Every opponent rating on the internal scale, in order. */
  function Mus(ratings: seq<real>): seq<real>
  {
    seq(|ratings|, j requires 0 <= j < |ratings| => ToMu(ratings[j]))
  }

  /** Every opponent deviation on the internal scale, in order. */
  function Phis(rds: seq<real>): seq<real>
  {
    seq(|rds|, j requires 0 <= j < |rds| => ToPhi(rds[j]))
  }

  /** New mu, phi and sigma on the internal scale. */
  datatype Estimate = Estimate(mu: real, phi: real, sigma: real)

  /** The part of an update with at least one match: given mu, phi, sigma, the
      opponents' mu and phi, the scores, the number of matches and tau, it
      yields the new mu, phi and sigma. */
  type Step = (real, real, real, seq<real>, seq<real>, seq<int>, nat, real) -> Estimate

  /** The floating-point library the update is computed with. */
  datatype Numerics = Numerics(sqrt: real -> real, step: Step)

  /** x to the power 2, as the original computes it with pow(x, 2). */
  function Square(x: real): real
  {
    x * x
  }

  /** The idealisation under which the no-match branch is exact: `sqrt` is
      the non-negative square root on the non-negative reals. */
  ghost predicate IsSqrt(sqrt: real -> real)
  {
    forall x :: 0.0 <= x ==> 0.0 <= sqrt(x) && Square(sqrt(x)) == x
  }

  /** The deviation after a rating period without matches: on the internal
      scale it is the square root of phi^2 + sigma^2. */
  function NoMatchRd(sqrt: real -> real, rd: real, volatility: real): (r: real)
    ensures ToPhi(r) == sqrt(Square(ToPhi(rd)) + Square(volatility))
  {
    FromPhi(sqrt(Square(ToPhi(rd)) + Square(volatility)))
  }

  /** The three results of one update: rating, deviation, volatility. With no
      matches the rating and volatility come back exactly as given. */
  function SingleRunSpec(math: Numerics, tau: real, rating: real, rd: real, volatility: real,
                         numMatches: nat, oppRating: seq<real>, oppRd: seq<real>,
                         scores: seq<int>): (primes: seq<real>)
    ensures |primes| == 3
    ensures numMatches == 0 ==>
      primes[0] == rating && primes[1] == NoMatchRd(math.sqrt, rd, volatility) && primes[2] == volatility
    ensures numMatches > 0 ==>
      var e := math.step(ToMu(rating), ToPhi(rd), volatility, Mus(oppRating), Phis(oppRd),
                         scores, numMatches, tau);
      ToMu(primes[0]) == e.mu && ToPhi(primes[1]) == e.phi && primes[2] == e.sigma
  {
    if numMatches == 0 then
      [rating, NoMatchRd(math.sqrt, rd, volatility), volatility]
    else
      var e := math.step(ToMu(rating), ToPhi(rd), volatility, Mus(oppRating), Phis(oppRd),
                         scores, numMatches, tau);
      [FromMu(e.mu), FromPhi(e.phi), e.sigma]
  }

  lemma SquareNonNegative(x: real)
    ensures 0.0 <= Square(x)
    ensures x != 0.0 ==> 0.0 < Square(x)
  {
    if x < 0.0 {
      calc {
        Square(x);
      ==
        (-x) * (-x);
      >
        0.0;
      }
    } else if 0.0 < x {
      calc {
        Square(x);
      ==
        x * x;
      >
        0.0;
      }
    }
  }

  /** Between non-negative reals, comparing squares compares the numbers. */
  lemma SquareMonotone(a: real, b: real)
    requires 0.0 <= a && 0.0 <= b
    ensures Square(a) <= Square(b) ==> a <= b
    ensures Square(a) < Square(b) ==> a < b
  {
    if b < a {
      calc {
        Square(b);
      ==
        b * b;
      <=
        a * b;
      <
        a * a;
      ==
        Square(a);
      }
    }
  }

  /** Under an ideal square root, the no-match deviation is non-negative and
      phi'^2 = phi^2 + sigma^2 on the internal scale. */
  lemma NoMatchRdIdeal(sqrt: real -> real, rd: real, volatility: real)
    requires IsSqrt(sqrt)
    ensures 0.0 <= NoMatchRd(sqrt, rd, volatility)
    ensures Square(ToPhi(NoMatchRd(sqrt, rd, volatility))) == Square(ToPhi(rd)) + Square(volatility)
  {
    var x := Square(ToPhi(rd)) + Square(volatility);
    var r := NoMatchRd(sqrt, rd, volatility);
    assert ToPhi(r) == sqrt(x);
    SquareNonNegative(ToPhi(rd));
    SquareNonNegative(volatility);
  }

  /** Under an ideal square root, a period without matches never lowers a
      deviation, and raises it when the volatility is non-zero. A negative
      deviation comes back non-negative, so it is raised too. */
  lemma NoMatchRdGrows(sqrt: real -> real, rd: real, volatility: real)
    requires IsSqrt(sqrt)
    ensures rd <= NoMatchRd(sqrt, rd, volatility)
    ensures volatility != 0.0 ==> rd < NoMatchRd(sqrt, rd, volatility)
  {
    NoMatchRdIdeal(sqrt, rd, volatility);
    if 0.0 <= rd {
      var r := NoMatchRd(sqrt, rd, volatility);
      SquareNonNegative(volatility);
      SquareMonotone(ToPhi(rd), ToPhi(r));
    }
  }
}

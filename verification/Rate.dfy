/** rtoken/rate: the exchange rate between a token and its rToken. */
module Rate {
  import opened Arithmetic

  const RATEBASE: u64 := 1_000_000_000_000

  /** `set_rate`: the rate for `total` tokens backing `rtotal` rTokens, cut to 64 bits. */
  function RateOf(total: u128, rtotal: u128): u64
  {
    if total == 0 || rtotal == 0 then RATEBASE
    else match MulRational(total, RATEBASE, rtotal)
      case Some(r) => r % (U64_MAX + 1)
      case None => RATEBASE
  }

  function TokenToRtoken(rate: Option<u64>, v: u128): u128
  {
    if rate.None? || rate.value == 0 then v
    else match MulRational(v, RATEBASE, rate.value)
      case Some(r) => r
      case None => v
  }

  function RtokenToToken(rate: Option<u64>, v: u128): u128
  {
    if rate.None? then v
    else match MulRational(v, rate.value, RATEBASE)
      case Some(t) => t
      case None => 0
  }

  /** out is v tokens' worth of rTokens at the rate, rounded down; v itself without a rate, at rate zero and
      where the quotient does not fit. */
  predicate IsMinted(rate: Option<u64>, v: nat, out: nat)
  {
    if rate.Some? && rate.value > 0 && v * RATEBASE < rate.value * (U128_MAX + 1)
    then rate.value * out <= v * RATEBASE < rate.value * out + rate.value
    else out == v
  }

  /** out is what v rTokens are worth at the rate, rounded down; v itself without a rate, and nothing where the
      quotient does not fit. */
  predicate IsRedeemed(rate: Option<u64>, v: nat, out: nat)
  {
    if rate.None? then out == v
    else if rate.value * v < RATEBASE * (U128_MAX + 1) then RATEBASE * out <= rate.value * v < RATEBASE * out + RATEBASE
    else out == 0
  }

  /** The quotient fits exactly if the dividend is below the divisor's share of the limit. */
  lemma QuotientFits(n: nat, d: nat, limit: nat)
    requires d > 0
    ensures Floor(n, d) * d <= n < Floor(n, d) * d + d
    ensures Floor(n, d) <= limit <==> n < d * (limit + 1)
  {
    hide Floor;
    FloorBounds(n, d);
    if n < d * (limit + 1) {
      if Floor(n, d) > limit {
        MulMono(limit + 1, Floor(n, d), d);
      }
    } else {
      FloorAtLeast(n, d, limit + 1);
    }
  }

  lemma MintIsExact(rate: Option<u64>, v: u128)
    ensures IsMinted(rate, v, TokenToRtoken(rate, v))
  {
    hide Floor;
    if rate.Some? && rate.value > 0 {
      QuotientFits(v * RATEBASE, rate.value, U128_MAX);
    }
  }

  lemma RedeemIsExact(rate: Option<u64>, v: u128)
    ensures IsRedeemed(rate, v, RtokenToToken(rate, v))
  {
    hide Floor;
    if rate.Some? {
      QuotientFits(v * rate.value, RATEBASE, U128_MAX);
    }
  }

  /** The rate is the quotient q of total tokens, in units of RATEBASE, by rtotal rTokens, rounded down and cut to
      64 bits; RATEBASE where q does not fit 128 bits or there is nothing to divide. */
  lemma RateIsExact(total: u128, rtotal: u128, q: nat)
    requires total > 0 && rtotal > 0 ==> q * rtotal <= total * RATEBASE < q * rtotal + rtotal
    ensures RateOf(total, rtotal) == if total == 0 || rtotal == 0 || q > U128_MAX then RATEBASE else q % (U64_MAX + 1)
  {
    hide Floor;
    if total > 0 && rtotal > 0 {
      FloorBounds(total * RATEBASE, rtotal);
      FloorUnique(total * RATEBASE, rtotal, Floor(total * RATEBASE, rtotal), q);
    }
  }

  /** A rate never values the rTokens above the tokens behind them. */
  lemma RateCovered(total: u128, rtotal: u128)
    requires total > 0 || rtotal == 0
    ensures RateOf(total, rtotal) * rtotal <= RATEBASE * total
  {
    if total > 0 && rtotal > 0 {
      var q := Floor(total * RATEBASE, rtotal);
      FloorBounds(total * RATEBASE, rtotal);
      if q <= U128_MAX {
        TruncatedCovered(q, rtotal, total * RATEBASE);
      } else {
        MulMono(RATEBASE, q, rtotal);
      }
    }
  }

  lemma TruncatedCovered(q: nat, r: nat, bound: nat)
    requires q * r <= bound
    ensures q % (U64_MAX + 1) * r <= bound
  {
    MulMono(q % (U64_MAX + 1), q, r);
  }

  /** rTokens minted for v tokens are worth at most v. */
  lemma MintCovered(rate: u64, v: u128)
    ensures rate * TokenToRtoken(Some(rate), v) <= RATEBASE * v
  {
    if rate > 0 {
      var q := Floor(v * RATEBASE, rate);
      FloorBounds(v * RATEBASE, rate);
      if q > U128_MAX {
        MulMono(v, q, rate);
      }
    }
  }

  /** Tokens paid for v rTokens are worth at most v. */
  lemma RedeemCovered(rate: u64, v: u128)
    ensures RATEBASE * RtokenToToken(Some(rate), v) <= rate * v
  {
    FloorBounds(v * rate, RATEBASE);
  }

  /** Bonding and unbonding at one rate never returns more tokens, and buying back never
      yields more rTokens. */
  lemma RoundTrips(rate: Option<u64>, v: u128)
    ensures RtokenToToken(rate, TokenToRtoken(rate, v)) <= v
    ensures TokenToRtoken(rate, RtokenToToken(rate, v)) <= v
  {
    if rate.Some? {
      MintCovered(rate.value, v);
      RedeemCovered(rate.value, TokenToRtoken(rate, v));
      MulCancel(RtokenToToken(rate, TokenToRtoken(rate, v)), v, RATEBASE);
      RedeemCovered(rate.value, v);
      MintCovered(rate.value, RtokenToToken(rate, v));
      if rate.value > 0 {
        MulCancel(TokenToRtoken(rate, RtokenToToken(rate, v)), v, rate.value);
      }
    }
  }
}

/** Linear vesting of mint rewards, computed from the last claim onwards
    (claims/rclaim `claim_rtoken_reward`). */
module Vesting {
  import opened Arithmetic

  datatype ClaimInfo = ClaimInfo(mint: u128, native: u128, reward: u128, claimed: u128, latest: u32, mintBlock: u32)

  /** The block from which everything is claimable. */
  function FinalBlock(info: ClaimInfo, locked: u32): u32 { SatAdd32(info.mintBlock, locked) }

  /** What a claim at block `now` is worth. */
  function Claimable(info: ClaimInfo, locked: u32, now: u32): u128
  {
    var left := SatSub(info.reward, info.claimed);
    var final := FinalBlock(info, locked);
    if now < final && info.latest < final then
      match MulRational(left, SatSub(now, info.latest), SatSub(final, info.latest))
      case Some(v) => v
      case None => 0
    else if now < final then 0
    else left
  }

  /** The record after a claim attempt; an attempt worth nothing fails and changes nothing. */
  function Claim(info: ClaimInfo, locked: u32, now: u32): ClaimInfo
  {
    var v := Claimable(info, locked, now);
    if v == 0 then info else info.(claimed := SatAdd(info.claimed, v), latest := now)
  }

  // ----- one claim

  lemma SplitPaid(c: nat, a: nat, d: nat, r: nat, w: nat)
    requires w <= r
    ensures (c + a) * d * r == c * d * (r - w) + c * d * w + a * r * d
  {
  }

  lemma SplitVested(t: nat, u: nat, r: nat, w: nat)
    requires w <= r
    ensures t * u * (r - w) + t * w * (u + r) == t * (u + w) * r
  {
  }

  lemma SplitLeft(t: nat, c: nat, w: nat, d: nat)
    requires c <= t
    ensures (t - c) * w * d + c * d * w == t * w * d
  {
  }

  lemma UpperStep(t: nat, c: nat, u: nat, w: nat, r: nat, a: nat)
    requires w < r && c <= t && c * (u + r) <= t * u && a * r <= (t - c) * w
    ensures (c + a) * (u + r) <= t * (u + w)
  {
    var d := u + r;
    MulMono(c * d, t * u, r - w);
    MulMono(a * r, (t - c) * w, d);
    SplitPaid(c, a, d, r, w);
    SplitLeft(t, c, w, d);
    SplitVested(t, u, r, w);
    MulCancel((c + a) * d, t * (u + w), r);
  }

  lemma LowerStep(t: nat, c: nat, u: nat, w: nat, r: nat, a: nat)
    requires w < r && c <= t && c * (u + r) <= t * u && (t - c) * w < a * r + r
    ensures t * (u + w) < t * u + a * (u + r) + (u + r)
  {
    var d := u + r;
    SplitVested(t, u, r, w);
    SplitLeft(t, c, w, d);
    Scale((t - c) * w, a * r + r, d);
    MulMono(c * d, t * u, w);
    LowerSum(t * u, a, d, r, w);
    StrictCancel(t * (u + w), t * u + a * d + d, r);
  }

  lemma LowerSum(x: nat, a: nat, d: nat, r: nat, w: nat)
    requires w <= r
    ensures x * (r - w) + x * w + (a * r + r) * d == (x + a * d + d) * r
  {
  }

  lemma Scale(x: nat, y: nat, d: nat)
    requires x < y && d > 0
    ensures x * d < y * d
  {
    MulMono(x + 1, y, d);
    assert (x + 1) * d == x * d + d;
  }

  lemma StrictCancel(x: nat, y: nat, r: nat)
    requires x * r < y * r
    ensures x < y
  {
    if x >= y {
      MulMono(y, x, r);
    }
  }

  // ----- any number of claims

  /** Blocks over which the reward vests. */
  function Span(info: ClaimInfo, locked: u32): nat { FinalBlock(info, locked) - info.mintBlock }

  /** After k successful claims: never ahead of the line, and behind it by less than k units. */
  predicate OnSchedule(info: ClaimInfo, locked: u32, k: nat)
  {
    && info.mintBlock <= info.latest
    && info.claimed <= info.reward
    && (k == 0 ==> info.claimed == 0 && info.latest == info.mintBlock)
    && (info.latest < FinalBlock(info, locked) ==>
          && info.claimed * Span(info, locked) <= info.reward * (info.latest - info.mintBlock)
          && (k > 0 ==>
             info.reward * (info.latest - info.mintBlock) < info.claimed * Span(info, locked) + k * Span(info, locked)))
    && (k > 0 && info.latest >= FinalBlock(info, locked) ==> info.claimed == info.reward)
  }

  lemma Regroup(c: nat, a: nat, k: nat, d: nat)
    ensures (c + a) * d == c * d + a * d && (k + 1) * d == k * d + d && (c + k) * d == c * d + k * d
  {
  }

  lemma PartialClaim(t: nat, c: nat, u: nat, w: nat, r: nat, a: nat, k: nat)
    requires w < r && c <= t && c * (u + r) <= t * u && a == Floor((t - c) * w, r)
    requires if k == 0 then t * u == c * (u + r) else t * u < c * (u + r) + k * (u + r)
    ensures (c + a) * (u + r) <= t * (u + w)
    ensures t * (u + w) < (c + a) * (u + r) + (k + 1) * (u + r)
    ensures c + a <= t
  {
    hide Floor;
    FloorBounds((t - c) * w, r);
    UpperStep(t, c, u, w, r, a);
    LowerStep(t, c, u, w, r, a);
    Regroup(c, a, k, u + r);
    MulMono(w, r, t - c);
    FloorAtMost((t - c) * w, r, t - c);
  }

  lemma ClaimableIs(info: ClaimInfo, locked: u32, now: u32)
    requires info.claimed <= info.reward && info.latest <= now
    ensures now >= FinalBlock(info, locked) ==> Claimable(info, locked, now) == info.reward - info.claimed
    ensures now < FinalBlock(info, locked) ==>
              Claimable(info, locked, now) ==
              Floor((info.reward - info.claimed) * (now - info.latest), FinalBlock(info, locked) - info.latest)
  {
    if now < FinalBlock(info, locked) {
      var left, r := info.reward - info.claimed, FinalBlock(info, locked) - info.latest;
      MulMono(now - info.latest, r, left);
      FloorAtMost(left * (now - info.latest), r, left);
    }
  }

  lemma PartialOnSchedule(info: ClaimInfo, locked: u32, now: u32, k: nat)
    requires OnSchedule(info, locked, k) && info.latest <= now < FinalBlock(info, locked)
    ensures var a := Claimable(info, locked, now);
            && info.claimed + a <= info.reward
            && OnSchedule(info.(claimed := info.claimed + a, latest := now), locked, k + 1)
            && info.claimed * Span(info, locked) <= info.reward * (now - info.mintBlock)
  {
    hide Claimable;
    ClaimableIs(info, locked, now);
    var u, w, r := info.latest - info.mintBlock, now - info.latest, FinalBlock(info, locked) - info.latest;
    PartialClaim(info.reward, info.claimed, u, w, r, Claimable(info, locked, now), k);
    MulMono(u, u + w, info.reward);
  }

  lemma ClaimOnSchedule(info: ClaimInfo, locked: u32, now: u32, k: nat)
    requires OnSchedule(info, locked, k) && info.latest <= now
    ensures var next := Claim(info, locked, now);
            OnSchedule(next, locked, if next == info then k else k + 1)
    ensures now >= FinalBlock(info, locked) ==> Claim(info, locked, now).claimed == info.reward
    ensures now < FinalBlock(info, locked) ==>
              Claim(info, locked, now).claimed * Span(info, locked) <= info.reward * (now - info.mintBlock)
  {
    hide Claimable;
    ClaimableIs(info, locked, now);
    if now < FinalBlock(info, locked) {
      PartialOnSchedule(info, locked, now, k);
    }
  }

  /** The record after claim attempts at the given blocks, and how many of them paid. */
  function Claims(info: ClaimInfo, locked: u32, times: seq<u32>): (ClaimInfo, nat)
    decreases |times|
  {
    if times == [] then (info, 0) else
      var next := Claim(info, locked, times[0]);
      var (end, n) := Claims(next, locked, times[1..]);
      (end, n + if next == info then 0 else 1)
  }

  predicate Rising(from: u32, times: seq<u32>)
  {
    && (forall i :: 0 <= i < |times| ==> from <= times[i])
    && (forall i, j :: 0 <= i < j < |times| ==> times[i] <= times[j])
  }

  lemma {:induction false} ClaimsOnSchedule(info: ClaimInfo, locked: u32, times: seq<u32>, k: nat)
    requires OnSchedule(info, locked, k) && times != [] && Rising(info.latest, times)
    ensures var (end, n) := Claims(info, locked, times);
            var last := times[|times| - 1];
            && end == info.(claimed := end.claimed, latest := end.latest)
            && OnSchedule(end, locked, k + n)
            && (last >= FinalBlock(info, locked) ==> end.claimed == info.reward)
            && (last < FinalBlock(info, locked) ==>
                end.claimed * Span(info, locked) <= info.reward * (last - info.mintBlock))
    decreases |times|
  {
    hide OnSchedule, Claimable;
    var next := Claim(info, locked, times[0]);
    ClaimOnSchedule(info, locked, times[0], k);
    if |times| == 1 {
      assert Claims(next, locked, times[1..]) == (next, 0);
    } else {
      assert times[1..][|times| - 2] == times[|times| - 1];
      ClaimsOnSchedule(next, locked, times[1..], if next == info then k else k + 1);
    }
  }

  /** Claims of a fresh reward, at any blocks: never more than the linear share of the
      time passed, less than one unit behind per paid claim, and complete at the end. */
  lemma VestingOverClaims(info: ClaimInfo, locked: u32, times: seq<u32>)
    requires info.claimed == 0 && info.latest == info.mintBlock && times != [] && Rising(info.mintBlock, times)
    ensures var (end, n) := Claims(info, locked, times);
            var last, span := times[|times| - 1], Span(info, locked);
            && end.claimed <= info.reward
            && (last < FinalBlock(info, locked) ==> end.claimed * span <= info.reward * (last - info.mintBlock))
            && (n > 0 && last < FinalBlock(info, locked) ==>
                  info.reward * (end.latest - info.mintBlock) < (end.claimed + n) * span)
            && (last >= FinalBlock(info, locked) ==> end.claimed == info.reward)
  {
    hide Claims, Rising;
    ClaimsOnSchedule(info, locked, times, 0);
    LatestAtMost(info, locked, times);
    var (end, n) := Claims(info, locked, times);
    Regroup(end.claimed, 0, n, Span(info, locked));
  }

  lemma {:induction false} LatestAtMost(info: ClaimInfo, locked: u32, times: seq<u32>)
    requires times != [] && Rising(info.latest, times)
    ensures Claims(info, locked, times).0.latest <= times[|times| - 1]
    decreases |times|
  {
    hide Claimable;
    var next := Claim(info, locked, times[0]);
    if |times| > 1 {
      assert times[1..][|times| - 2] == times[|times| - 1];
      LatestAtMost(next, locked, times[1..]);
    }
  }
}

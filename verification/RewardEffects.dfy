/** What the calls of the reward acts pay out, allocate and record, and what a reward has been paid over a run. */
module RewardEffects {
  import opened Arithmetic
  import opened Rate
  import opened Vesting
  import opened RewardActs
  import opened RewardActProofs

  // ----- claims

  /** v is what a claim is worth: everything left from the final block on, before it the share of the blocks passed
      since the last claim in those that were still to come, rounded down. */
  predicate IsWorth(info: ClaimInfo, final: u32, now: u32, v: nat)
  {
    if info.reward <= info.claimed then v == 0
    else if now >= final then v == info.reward - info.claimed
    else if info.latest >= final || now <= info.latest then v == 0
    else
      var left, passed, span := info.reward - info.claimed, now - info.latest, final - info.latest;
      v * span <= left * passed < v * span + span
  }

  lemma Worth(info: ClaimInfo, locked: u32, now: u32)
    ensures IsWorth(info, Min(info.mintBlock + locked, U32_MAX), now, Claimable(info, locked, now))
    ensures Claimable(info, locked, now) <= SatSub(info.reward, info.claimed)
  {
    hide Floor;
    var left, final := SatSub(info.reward, info.claimed), FinalBlock(info, locked);
    if now < final && info.latest < final {
      var passed, span := SatSub(now, info.latest), SatSub(final, info.latest);
      MulMono(passed, span, left);
      FloorBounds(left * passed, span);
      FloorAtMost(left * passed, span, left);
      if left * passed == 0 {
        FloorAtMost(left * passed, span, 0);
      }
    }
  }

  /** A claim succeeds exactly if it is worth something and can be paid; then it pays what the record gains, never
      past the reward, and otherwise it pays nothing and changes nothing. */
  lemma ClaimPays(s: State, who: Holder, cycle: u32, index: u64, now: u32, funded: bool, payable: bool, v: nat)
    requires (who, cycle, index) in s.claims && cycle in s.acts ==>
               var info := s.claims[(who, cycle, index)];
               IsWorth(info, Min(info.mintBlock + s.acts[cycle].locked, U32_MAX), now, v)
    ensures var (s', e, paid) := ClaimReward(s, who, cycle, index, now, funded, payable);
            var key := (who, cycle, index);
            && (e.None? <==> key in s.claims && cycle in s.acts && funded && payable && v > 0)
            && (e.Some? ==> s' == s && paid == 0)
            && (e.None? ==>
                  var info := s.claims[key];
                  && paid == v && info.claimed + v <= info.reward
                  && s' == s.(claims := s.claims[key := info.(claimed := info.claimed + v, latest := now)]))
  {
    hide Claimable, IsWorth;
    var key := (who, cycle, index);
    if key in s.claims && cycle in s.acts {
      var info, locked := s.claims[key], s.acts[cycle].locked;
      Worth(info, locked, now);
      WorthUnique(info, Min(info.mintBlock + locked, U32_MAX), now, v, Claimable(info, locked, now));
    }
  }

  lemma WorthUnique(info: ClaimInfo, final: u32, now: u32, v: nat, w: nat)
    requires IsWorth(info, final, now, v) && IsWorth(info, final, now, w)
    ensures v == w
  {
    if info.reward > info.claimed && now < final && info.latest < now {
      FloorUnique((info.reward - info.claimed) * (now - info.latest), final - info.latest, v, w);
    }
  }

  // ----- what a reward was paid over a run

  function PaidBy(s: State, c: Call, now: u32, key: ClaimKey): u128
  {
    if c.ClaimCall? && (c.who, c.cycle, c.index) == key
    then ClaimReward(s, c.who, c.cycle, c.index, now, c.funded, c.payable).2 else 0
  }

  /** Everything the claims of a run paid out for one record. */
  function PaidFor(s: State, calls: seq<(Call, u32)>, key: ClaimKey): nat
    decreases |calls|
  {
    if calls == [] then 0
    else PaidBy(s, calls[0].0, calls[0].1, key) + PaidFor(Step(s, calls[0].0, calls[0].1), calls[1..], key)
  }

  lemma StepPays(s: State, c: Call, now: u32, key: ClaimKey)
    requires KeysOk(s) && Counted(s, c) && key in s.claims
    ensures var s' := Step(s, c, now);
            && key in s'.claims && s'.claims[key].reward == s.claims[key].reward
            && s'.claims[key].claimed == s.claims[key].claimed + PaidBy(s, c, now, key)
            && (PaidBy(s, c, now, key) > 0 ==> s'.claims[key].claimed <= s'.claims[key].reward)
  {
    hide Claimable, Counted, AddAct, UpdateClaimInfo, UpdateBatch;
    match c {
      case UpdateCall(_, _) =>
      case ClaimCall(who, cycle, index, _, _) =>
        if (who, cycle, index) == key {
          Worth(s.claims[key], s.acts[cycle].locked, now);
        }
      case _ => StepFollows(s, c, now, key);
    }
  }

  /** Over any run, whatever is updated in between, the claims of a reward pay exactly what its record gains, and
      never more than the reward. */
  lemma {:induction false} PaidIsClaimed(s: State, calls: seq<(Call, u32)>, key: ClaimKey)
    requires KeysOk(s) && CountedRun(s, calls) && key in s.claims
    ensures key in Run(s, calls).claims
    ensures var info, end := s.claims[key], Run(s, calls).claims[key];
            && end.reward == info.reward && end.claimed == info.claimed + PaidFor(s, calls, key)
            && (info.claimed <= info.reward ==> end.claimed <= end.reward)
    decreases |calls|
  {
    hide Step, Counted, KeysOk, PaidBy;
    if calls != [] {
      StepKeepsKeys(s, calls[0].0, calls[0].1);
      StepPays(s, calls[0].0, calls[0].1, key);
      PaidIsClaimed(Step(s, calls[0].0, calls[0].1), calls[1..], key);
    }
  }

  /** What a fresh reward is paid over a run that leaves its vesting time: never ahead of the line, less than one unit
      behind it for every claim that paid, and everything once a claim comes at the final block or later. */
  lemma PaidInRuns(s: State, calls: seq<(Call, u32)>, key: ClaimKey)
    requires KeysOk(s) && CountedRun(s, calls) && key in s.claims && TimeStays(calls, key.1, s.acts[key.1].locked)
    requires s.claims[key].claimed == 0 && s.claims[key].latest == s.claims[key].mintBlock
    requires Ordered(calls, s.claims[key].mintBlock) && ClaimBlocks(calls, key) != []
    ensures key.1 in s.acts && key in Run(s, calls).claims
    ensures var info, end, paid := s.claims[key], Run(s, calls).claims[key], PaidFor(s, calls, key);
            var times, final := ClaimBlocks(calls, key), Min(info.mintBlock + s.acts[key.1].locked, U32_MAX);
            var n, last := Claims(info, s.acts[key.1].locked, times).1, times[|times| - 1];
            && paid <= info.reward
            && (last >= final ==> paid == info.reward)
            && (last < final ==> paid * (final - info.mintBlock) <= info.reward * (last - info.mintBlock))
            && (last < final && n > 0 ==>
                  info.reward * (end.latest - info.mintBlock) < (paid + n) * (final - info.mintBlock))
  {
    hide Run, Claims, Ordered, ClaimBlocks, CountedRun, TimeStays, KeysOk, PaidFor;
    VestingInRuns(s, calls, key);
    PaidIsClaimed(s, calls, key);
  }

  // ----- allocations

  /** q is what a mint worth `native` earns at the rate of an act, rounded down. */
  predicate IsEarned(native: u128, rate: u128, q: nat) { RATEBASE * q <= native * rate < RATEBASE * q + RATEBASE }

  /** What is granted of it: nothing if it does not fit u128, at most what is left and, with a limit, at most that. */
  function Grant(act: Act, q: nat): nat
  {
    var fits := if q <= U128_MAX then q else 0;
    if act.userLimit > 0 then Min(Min(fits, act.left), act.userLimit) else Min(fits, act.left)
  }

  lemma RewardIsGrant(act: Act, native: u128, q: nat)
    requires IsEarned(native, act.rate, q)
    ensures RewardFor(act, native) == Grant(act, q)
  {
    hide Floor;
    FloorBounds(native * act.rate, RATEBASE);
    FloorUnique(native * act.rate, RATEBASE, q, Floor(native * act.rate, RATEBASE));
  }

  /** A mint while an act with budget runs records the grant for the minter, takes it from the budget and counts
      the mint; no other record and no other act is different. */
  lemma MintAllocates(s: State, who: Holder, mint: u128, native: u128, now: u32, i: u32, q: nat)
    requires Sorted(s) && CursorOk(s, now) && IsRunning(s, i, now) && s.acts[i].left > 0
    requires IsEarned(native, s.acts[i].rate, q) && Count(s, who, i) < U64_MAX
    ensures var act, n, g, s' := s.acts[i], Count(s, who, i), Grant(s.acts[i], q),
            UpdateClaimInfo(s, who, mint, native, now);
            && g <= act.left && g <= U128_MAX && s'.current == i && s'.latest == s.latest
            && s'.claims == s.claims[(who, i, n) := ClaimInfo(mint, native, g, 0, now, now)]
            && s'.counts == s.counts[(who, i) := n + 1]
            && s'.acts == s.acts[i := act.(left := act.left - g, rtokens := Min(act.rtokens + mint, U128_MAX),
                                           natives := Min(act.natives + native, U128_MAX))]
            && who in s'.userActs && i in s'.userActs[who]
            && (forall x: Holder :: x != who ==> (x in s'.userActs <==> x in s.userActs))
            && (forall x: Holder :: x in s.userActs && x != who ==> s'.userActs[x] == s.userActs[x])
  {
    hide RewardFor, Locate, Sorted;
    LocateIsSearch(s, now);
    RewardIsGrant(s.acts[i], native, q);
  }

  /** Without such an act only the cursor can move. */
  lemma MintIgnored(s: State, who: Holder, mint: u128, native: u128, now: u32)
    requires Sorted(s) && CursorOk(s, now)
    requires forall i: u32 :: IsRunning(s, i, now) ==> s.acts[i].left == 0
    ensures var s' := UpdateClaimInfo(s, who, mint, native, now); s' == s.(current := s'.current)
  {
    hide Locate, Sorted;
    LocateIsSearch(s, now);
    var (s', found) := Locate(s, now);
    if found.Some? {
      assert IsRunning(s, found.value, now);
    }
  }

  // ----- acts

  predicate ParamsOk(p: ActParams)
  {
    0 < p.begin < p.end && p.userLimit < p.total && p.locked > 0 && p.rate > 0
  }

  /** An act is added exactly if its parameters are sound, it is not over and it begins after the one before it;
      it starts with its whole budget and nothing minted. */
  lemma AddActDoes(s: State, p: ActParams, now: u32)
    requires s.latest < U32_MAX
    ensures var (s', e) := AddAct(s, p, now);
            && (e.None? <==>
                  && ParamsOk(p) && now < p.end
                  && (s.latest > 0 ==> s.latest in s.acts && s.acts[s.latest].end < p.begin))
            && (e.Some? ==> s' == s)
            && (e.None? ==>
                  var cycle := s.latest + 1;
                  && s' == s.(latest := cycle, acts := s.acts[cycle := s'.acts[cycle]])
                  && s'.acts[cycle] ==
                     Act(p.begin, p.end, cycle, p.rate, p.total, p.total, p.userLimit, p.locked, 0, 0))
  {
    AddEffect(s, p, now);
    NoWrap32(s.latest + 1);
  }

  /** An update sets the parameters of its act, keeps what was minted, and moves what is left by what the total gains
      or loses, cut at nothing and at u128. */
  lemma UpdateActDoes(s: State, cycle: u32, p: ActParams, now: u32)
    ensures var (s', e) := UpdateAct(s, cycle, p, now);
            && (e.None? <==> ParamsOk(p) && now < p.end && cycle in s.acts)
            && (e.Some? ==> s' == s)
            && (e.None? ==>
                  && s' == s.(acts := s.acts[cycle := s'.acts[cycle]])
                  && var act, act' := s.acts[cycle], s'.acts[cycle];
                     && act' == Act(p.begin, p.end, cycle, p.rate, p.total, act'.left, p.userLimit, p.locked,
                                    act.rtokens, act.natives)
                     && act'.left == if p.total + act.left <= act.total then 0
                        else Min(p.total + act.left - act.total, U128_MAX))
  {
  }
}

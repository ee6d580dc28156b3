/** Rewards over every run of the mining pallet: each stake's record says what it was paid, and what a grade emitted
    is paid, owed, or lost to rounding and to emergencies. */
module MiningPayouts {
  import opened Arithmetic
  import opened Sums
  import opened Tokens
  import opened Mining
  import opened MiningBound
  import opened MiningRuns
  import opened MiningEmission
  import opened MiningEffects

  // ----- what each stake was paid

  /** The stake a call settles or gives up. */
  function StakeOf(c: Call): Option<StakeKey>
  {
    match c
    case WithdrawCall(who, i, k, _, _) => Some((i, who, k))
    case ClaimCall(who, i, k, _) => Some((i, who, k))
    case EmergencyCall(who, i, k) => Some((i, who, k))
    case _ => None
  }

  /** The native tokens the calls of a run paid out for one stake. */
  function PaidTo(w: World, calls: seq<(Call, u32)>, key: StakeKey): nat
    decreases |calls|
  {
    if calls == [] then 0 else
      var c, now := calls[0].0, calls[0].1;
      (if StakeOf(c) == Some(key) then Apply(w.st, c, now).paid else 0) + PaidTo(Step(w, c, now), calls[1..], key)
  }

  function ClaimedBy(d: State, key: StakeKey): u128 { if key in d.stakes then d.stakes[key].claimed else 0 }

  lemma StepClaims(w: World, c: Call, now: u32, key: StakeKey)
    requires Sound(w) && Admissible(w.st, c)
    ensures ClaimedBy(Step(w, c, now).st, key) ==
            Min(ClaimedBy(w.st, key) + if StakeOf(c) == Some(key) then Apply(w.st, c, now).paid else 0, U128_MAX)
  {
    hide Sound, Deposit, Withdraw, ClaimReward, EmergencyWithdraw, UpdatePool, IsAccrued, Pays;
    if Apply(w.st, c, now).error.Some? {
      FailureKeeps(w, c, now);
    } else {
      match c {
        case DepositCall(who, i, g, lp, allowed, exists_) => DepositDoes(w, who, i, g, lp, now, allowed, exists_);
        case WithdrawCall(who, i, k, lp, payable) => WithdrawDoes(w, who, i, k, lp, now, payable);
        case ClaimCall(who, i, k, payable) => ClaimDoes(w, who, i, k, now, payable);
        case EmergencyCall(who, i, k) => EmergencyDoes(w, who, i, k);
        case _ => AdminKeeps(w, c, now, (0, 0));
      }
    }
  }

  /** Over any run, the claimed amount of a stake grows by exactly what the calls paid out for it. */
  lemma {:induction false} ClaimedIsPaid(w: World, calls: seq<(Call, u32)>, key: StakeKey)
    requires Sound(w) && AdmissibleRun(w, calls)
    ensures ClaimedBy(Run(w, calls).st, key) == Min(ClaimedBy(w.st, key) + PaidTo(w, calls, key), U128_MAX)
    decreases |calls|
  {
    hide Sound, Admissible, Step, Apply;
    if calls != [] {
      var c, now := calls[0].0, calls[0].1;
      StepSound(w, c, now);
      StepClaims(w, c, now, key);
      ClaimedIsPaid(Step(w, c, now), calls[1..], key);
    }
  }

  // ----- what a grade emitted is paid, owed or lost

  /** What the stakes of a grade have accrued and not been paid, scaled by REWARD_FACTOR. */
  ghost function OwedBy(d: State, key: GradeKey): nat
  {
    if HasGrade(d, key.0, key.1)
    then Sum(OwedOf(GradeStakes(d.stakes, key.0, key.1), d.pools[key.0][key.1].perShare)) else 0
  }

  /** The grade a user call changes. */
  function Target(d: State, c: Call): Option<GradeKey>
  {
    match c
    case DepositCall(_, i, g, _, _, _) => Some((i, g))
    case _ =>
      match StakeOf(c)
      case None => None
      case Some(key) => if key in d.stakes then Some((key.0, d.stakes[key].grade)) else None
  }

  /** What a call loses, scaled: at most one unit of the scale for every unit staked when it emits, less than one
      unit of reward when units leave, and in an emergency what the stake was owed. */
  ghost function Loss(d: State, c: Call, now: u32, key: GradeKey): nat
  {
    if Target(d, c) != Some(key) || !HasGrade(d, key.0, key.1) || Apply(d, c, now).error.Some? then 0
    else
      var p := d.pools[key.0][key.1];
      match c
      case EmergencyCall(who, i, k) => Owed(d.stakes[(i, who, k)], p.perShare)
      case WithdrawCall(_, _, _, _, _) => UpdateLoss(p, now) + (REWARD_FACTOR - 1)
      case _ => UpdateLoss(p, now)
  }

  function UpdateLoss(p: StakePool, now: u32): nat
  {
    if p.totalLp > 0 && Emission(p, now) > 0 then p.totalLp - 1 else 0
  }

  ghost function Lost(w: World, calls: seq<(Call, u32)>, key: GradeKey): nat
    decreases |calls|
  {
    if calls == [] then 0
    else Loss(w.st, calls[0].0, calls[0].1, key) + Lost(Step(w, calls[0].0, calls[0].1), calls[1..], key)
  }

  /** The products of an update fit u128: what all units of the grade have accrued, and the emission to be added. */
  predicate Fits(p: StakePool, now: u32)
  {
    p.totalLp > 0 && Emission(p, now) > 0 ==>
      p.totalLp * p.perShare + Emission(p, now) * REWARD_FACTOR <= U128_MAX
  }

  /** Whenever a call of the run updates the grade, the products fit. */
  predicate FittingRun(w: World, calls: seq<(Call, u32)>, key: GradeKey)
    decreases |calls|
  {
    calls != [] ==>
      && (HasGrade(w.st, key.0, key.1) && GradeOf(w.st, calls[0].0) == Some(key) ==>
            Fits(w.st.pools[key.0][key.1], calls[0].1))
      && FittingRun(Step(w, calls[0].0, calls[0].1), calls[1..], key)
  }

  /** If a[k] + b[k] <= e[k] for every key, the same holds for the sums. */
  lemma {:induction false} SumBoth<K>(a: map<K, nat>, b: map<K, nat>, e: map<K, nat>)
    requires a.Keys == b.Keys == e.Keys
    requires forall k :: k in a ==> a[k] + b[k] <= e[k]
    ensures Sum(a) + Sum(b) <= Sum(e)
    decreases |a|
  {
    if a == map[] {
      assert b == map[] && e == map[];
    } else {
      var k :| k in a;
      SumSplit(a, k);
      SumSplit(b, k);
      SumSplit(e, k);
      SumBoth(a - {k}, b - {k}, e - {k});
    }
  }

  /** While its products fit, what a stake is owed grows by its units times the credit. */
  lemma OwedRises(s: Stake, a: u128, b: u128)
    requires a <= b && s.debt <= Accrued(s.lp, a) && s.lp * b <= U128_MAX
    ensures Owed(s, a) + Times(b - a, s.lp) <= Owed(s, b)
  {
    AccruedMono(s.lp, a, b);
    OwedExact(s, a);
    OwedExact(s, b);
    TimesIsProduct(b - a, s.lp);
    MulMono(a, b, s.lp);
    assert s.lp * b == s.lp * a + (b - a) * s.lp;
  }

  lemma OwedSumRises(ss: Stakes, a: u128, b: u128)
    requires a <= b && DebtsCovered(ss, a) && Sum(LpOf(ss)) * b <= U128_MAX
    ensures Sum(OwedOf(ss, a)) + Times(b - a, Sum(LpOf(ss))) <= Sum(OwedOf(ss, b))
  {
    hide Sum, Accrued, Owed;
    var before, after, growth := OwedOf(ss, a), OwedOf(ss, b), Scaled(b - a, LpOf(ss));
    forall k | k in after
      ensures before[k] + growth[k] <= after[k]
    {
      SumMember(LpOf(ss), k);
      MulMono(LpOf(ss)[k], Sum(LpOf(ss)), b);
      OwedRises(ss[k], a, b);
    }
    SumBoth(before, growth, after);
    SumScaled(b - a, LpOf(ss));
  }

  /** What fits, fits with the credit added. */
  lemma SumFits(total: nat, perShare: nat, credit: nat, bound: nat)
    requires total > 0 && total * perShare + total * credit <= bound
    ensures perShare + credit <= bound && total * (perShare + credit) <= bound
  {
    assert total * (perShare + credit) == total * perShare + total * credit;
    MulMono(1, total, perShare + credit);
  }

  lemma CreditWorth(total: nat, perShare: nat, scaled: nat, credit: nat)
    requires total > 0 && total * perShare + scaled <= U128_MAX
    requires total * credit <= scaled < total * credit + total
    ensures perShare + credit <= U128_MAX && total * (perShare + credit) <= U128_MAX
    ensures scaled <= Times(credit, total) + (total - 1)
  {
    SumFits(total, perShare, credit, U128_MAX);
    TimesIsProduct(credit, total);
  }

  /** The credit is worth the emission but for less than the stake. */
  lemma CreditFits(total: u128, perShare: u128, emission: u128, credit: nat)
    requires total > 0 && total * perShare + emission * REWARD_FACTOR <= U128_MAX
    requires IsPerShare(emission, total, credit)
    ensures perShare + credit <= U128_MAX && total * (perShare + credit) <= U128_MAX
    ensures REWARD_FACTOR * emission <= Times(credit, total) + (total - 1)
  {
    ghost var staked: nat := total * perShare;
    CreditWorth(total, perShare, emission * REWARD_FACTOR, credit);
  }

  lemma NoCredit(total: u128, credit: nat)
    requires total > 0 && IsPerShare(0, total, credit)
    ensures credit == 0
  {
    if credit > 0 {
      MulMono(1, credit, total);
    }
  }

  /** An emission is owed in full, but for the rounding of the credit. */
  lemma EmissionOwed(p: StakePool, ss: Stakes, m: Meter, now: u32)
    requires GradeOk(p, ss, m) && Fits(p, now)
    ensures var q := UpdatePool(p, now);
            && q.leftReward <= p.leftReward
            && Sum(OwedOf(ss, p.perShare)) + REWARD_FACTOR * (p.leftReward - q.leftReward) <=
               Sum(OwedOf(ss, q.perShare)) + UpdateLoss(p, now)
  {
    hide Sum, Accrued, Owed, OwedOf, LpOf, Floor, PerShare, Emission, UpdatePool, IsPerShare;
    if p.totalLp == 0 {
      IdleUpdate(p, now);
    } else {
      ghost var e: u128, credit: u128 := Emission(p, now), PerShare(Emission(p, now), p.totalLp);
      PerShareIs(e, p.totalLp, credit);
      UpdateDoes(p, now, credit);
      if e == 0 {
        NoCredit(p.totalLp, credit);
      } else {
        CreditFits(p.totalLp, p.perShare, e, credit);
        OwedSumRises(ss, p.perShare, p.perShare + credit);
      }
    }
  }

  // ----- one call

  /** What the step keeps: emission is covered by payouts, debts and losses. */
  ghost predicate CoveredStep(w: World, c: Call, now: u32, key: GradeKey)
  {
    var w', m, m' := Step(w, c, now), MeterOf(w, key), MeterOf(Step(w, c, now), key);
    && m'.emitted >= m.emitted && m'.paid >= m.paid
    && OwedBy(w.st, key) + REWARD_FACTOR * (m'.emitted - m.emitted) <=
       OwedBy(w'.st, key) + REWARD_FACTOR * (m'.paid - m.paid) + Loss(w.st, c, now, key)
  }

  lemma OwedAfter(d: State, d': State, i: u32, g: u32, key: StakeKey)
    requires OnlyStake(d, d', i, g, key) && key.0 == i && d'.stakes[key].grade == g
    requires key in d.stakes ==> d.stakes[key].grade == g
    ensures var s, perShare := d'.stakes[key], d'.pools[i][g].perShare;
            OwedBy(d', (i, g)) + (if key in d.stakes then Owed(d.stakes[key], perShare) else 0) ==
            Sum(OwedOf(GradeStakes(d.stakes, i, g), perShare)) + Owed(s, perShare)
    ensures forall x: GradeKey :: x != (i, g) ==> OwedBy(d', x) == OwedBy(d, x)
  {
    hide Sum, Owed, OwedOf, LpOf;
    var s, perShare, ss := d'.stakes[key], d'.pools[i][g].perShare, GradeStakes(d.stakes, i, g);
    GradeStakesAfter(d.stakes, key, s, i, g);
    StakeChange(ss, key, s, perShare);
    forall x: GradeKey | x != (i, g)
      ensures OwedBy(d', x) == OwedBy(d, x)
    {
      GradeStakesAfter(d.stakes, key, s, x.0, x.1);
    }
  }

  lemma DepositCovered(w: World, c: Call, now: u32, key: GradeKey)
    requires Sound(w) && Admissible(w.st, c) && c.DepositCall? && Apply(w.st, c, now).error.None?
    requires key == (c.i, c.g) ==> Fits(w.st.pools[c.i][c.g], now)
    ensures CoveredStep(w, c, now, key)
  {
    hide Sum, Sound, GradeOk, GradeStakes, UpdatePool, Accrued, UnlocksBeforeEnd, Fits, Owed, OwedOf, LpOf, OwedBy;
    hide Transfer, Pays, IsAccrued, UpdateLoss, Deposit;
    var i, g := c.i, c.g;
    var stake := (i, c.who, Count(w.st, i, c.who));
    DepositDoes(w, c.who, i, g, c.lp, now, c.allowed, c.swapPoolExists);
    OwedAfter(w.st, Step(w, c, now).st, i, g, stake);
    if key == (i, g) {
      SoundParts(w, i, g);
      EmissionOwed(w.st.pools[i][g], GradeStakes(w.st.stakes, i, g), MeterOf(w, key), now);
      OwedIs(w.st, key);
    }
  }

  lemma OwedIs(d: State, key: GradeKey)
    requires HasGrade(d, key.0, key.1)
    ensures OwedBy(d, key) == Sum(OwedOf(GradeStakes(d.stakes, key.0, key.1), d.pools[key.0][key.1].perShare))
  {
  }

  /** Settling pays what was owed, but for less than one unit when units leave. */
  lemma SettledOwes(s: Stake, t: Stake, perShare: u128, paid: nat)
    requires IsAccrued(s.lp, perShare, s.debt + paid) && IsAccrued(t.lp, perShare, t.debt)
    ensures Owed(s, perShare) <= Owed(t, perShare) + REWARD_FACTOR * paid + (REWARD_FACTOR - 1)
    ensures t.lp == s.lp ==> Owed(s, perShare) <= Owed(t, perShare) + REWARD_FACTOR * paid
  {
    ghost var x: nat, y: nat := SatMul(s.lp, perShare), SatMul(t.lp, perShare);
    assert REWARD_FACTOR * (s.debt + paid) <= x < REWARD_FACTOR * (s.debt + paid) + REWARD_FACTOR;
    assert REWARD_FACTOR * t.debt <= y < REWARD_FACTOR * t.debt + REWARD_FACTOR;
  }

  lemma ClaimCovered(w: World, c: Call, now: u32, key: GradeKey)
    requires Sound(w) && Admissible(w.st, c) && c.ClaimCall? && Apply(w.st, c, now).error.None?
    requires Staked(w.st, (c.i, c.who, c.k))
    requires key == (c.i, w.st.stakes[(c.i, c.who, c.k)].grade) ==> Fits(w.st.pools[key.0][key.1], now)
    ensures CoveredStep(w, c, now, key)
  {
    hide Sum, Sound, GradeOk, GradeStakes, UpdatePool, Accrued, Fits, Owed, OwedOf, LpOf, OwedBy, IsAccrued;
    hide UpdateLoss, ClaimReward;
    var i, stake := c.i, (c.i, c.who, c.k);
    var g := w.st.stakes[stake].grade;
    ClaimDoes(w, c.who, i, c.k, now, c.payable);
    OwedAfter(w.st, Step(w, c, now).st, i, g, stake);
    if key == (i, g) {
      var d' := Step(w, c, now).st;
      SoundParts(w, i, g);
      EmissionOwed(w.st.pools[i][g], GradeStakes(w.st.stakes, i, g), MeterOf(w, key), now);
      OwedIs(w.st, key);
      SettledOwes(w.st.stakes[stake], d'.stakes[stake], d'.pools[i][g].perShare, Apply(w.st, c, now).paid);
    }
  }

  lemma WithdrawCovered(w: World, c: Call, now: u32, key: GradeKey)
    requires Sound(w) && Admissible(w.st, c) && c.WithdrawCall? && Apply(w.st, c, now).error.None?
    requires Staked(w.st, (c.i, c.who, c.k))
    requires key == (c.i, w.st.stakes[(c.i, c.who, c.k)].grade) ==> Fits(w.st.pools[key.0][key.1], now)
    ensures CoveredStep(w, c, now, key)
  {
    hide Sum, Sound, GradeOk, GradeStakes, UpdatePool, Accrued, Fits, Owed, OwedOf, LpOf, OwedBy, IsAccrued;
    hide UpdateLoss, Withdraw, Pays;
    var i, stake := c.i, (c.i, c.who, c.k);
    var g := w.st.stakes[stake].grade;
    WithdrawDoes(w, c.who, i, c.k, c.lp, now, c.payable);
    OwedAfter(w.st, Step(w, c, now).st, i, g, stake);
    if key == (i, g) {
      var d' := Step(w, c, now).st;
      SoundParts(w, i, g);
      EmissionOwed(w.st.pools[i][g], GradeStakes(w.st.stakes, i, g), MeterOf(w, key), now);
      OwedIs(w.st, key);
      SettledOwes(w.st.stakes[stake], d'.stakes[stake], d'.pools[i][g].perShare, Apply(w.st, c, now).paid);
    }
  }

  lemma EmergencyCovered(w: World, c: Call, now: u32, key: GradeKey)
    requires Sound(w) && Admissible(w.st, c) && c.EmergencyCall? && Apply(w.st, c, now).error.None?
    ensures CoveredStep(w, c, now, key)
  {
    hide Sum, Sound, GradeOk, GradeStakes, Owed, OwedOf, LpOf, OwedBy, EmergencyWithdraw, Pays;
    var i, stake := c.i, (c.i, c.who, c.k);
    EmergencyDoes(w, c.who, i, c.k);
    var g := w.st.stakes[stake].grade;
    OwedAfter(w.st, Step(w, c, now).st, i, g, stake);
    if key == (i, g) {
      OwedIs(w.st, key);
    }
  }

  /** A call that changes no stake of the grade and not its reward per share leaves what is owed. */
  lemma AdminCovered(w: World, c: Call, now: u32, key: GradeKey)
    requires Sound(w) && Admissible(w.st, c)
    requires c.AddPoolCall? || c.UpdateCall? || c.RemovePoolCall? || c.IncreaseCall? || c.SwitchCall? || c.LpCall?
    ensures CoveredStep(w, c, now, key)
  {
    hide Sum, Sound, GradeOk, OwedOf, LpOf, GradeStakes;
    var d, d' := w.st, Step(w, c, now).st;
    AdminKeeps(w, c, now, key);
    if HasGrade(d, key.0, key.1) && !HasGrade(d', key.0, key.1) {
      SoundParts(w, key.0, key.1);
      NothingOwed(d.pools[key.0][key.1], GradeStakes(d.stakes, key.0, key.1), MeterOf(w, key));
    }
  }

  lemma NothingOwed(p: StakePool, ss: Stakes, m: Meter)
    requires GradeOk(p, ss, m) && p.totalLp == 0
    ensures Sum(OwedOf(ss, p.perShare)) == 0
  {
    EmptyIsGone(p, ss, m);
    AllZero(OwedOf(ss, p.perShare));
  }

  lemma AdminKeeps(w: World, c: Call, now: u32, key: GradeKey)
    requires Sound(w) && Admissible(w.st, c)
    requires c.AddPoolCall? || c.UpdateCall? || c.RemovePoolCall? || c.IncreaseCall? || c.SwitchCall? || c.LpCall?
    ensures var d, d' := w.st, Step(w, c, now).st;
            && d'.stakes == d.stakes
            && (HasGrade(d, key.0, key.1) ==>
                  if HasGrade(d', key.0, key.1)
                  then d'.pools[key.0][key.1].perShare == d.pools[key.0][key.1].perShare
                  else d.pools[key.0][key.1].totalLp == 0)
  {
    hide GradesOk, PastOk, VaultOk, BankStep;
  }

  lemma FailureCovered(w: World, c: Call, now: u32, key: GradeKey)
    requires Sound(w) && Admissible(w.st, c) && Apply(w.st, c, now).error.Some?
    ensures CoveredStep(w, c, now, key)
  {
    hide Sound, OwedBy, Apply;
    FailureKeeps(w, c, now);
  }

  lemma FailureKeeps(w: World, c: Call, now: u32)
    requires Sound(w) && Admissible(w.st, c) && Apply(w.st, c, now).error.Some?
    ensures Apply(w.st, c, now).st == w.st && Apply(w.st, c, now).paid == 0
  {
    hide Sound, UpdatePool, Accrued, Transfer, UnlocksBeforeEnd;
    if c.WithdrawCall? {
      WithdrawSound(w, c.who, c.i, c.k, c.lp, now, c.payable);
    }
  }

  lemma StepCovered(w: World, c: Call, now: u32, key: GradeKey)
    requires Sound(w) && Admissible(w.st, c)
    requires HasGrade(w.st, key.0, key.1) && GradeOf(w.st, c) == Some(key) ==> Fits(w.st.pools[key.0][key.1], now)
    ensures CoveredStep(w, c, now, key)
  {
    hide Sound, CoveredStep, Fits;
    if Apply(w.st, c, now).error.Some? {
      FailureCovered(w, c, now, key);
    } else {
      match c {
        case DepositCall(_, _, _, _, _, _) => DepositCovered(w, c, now, key);
        case WithdrawCall(_, _, _, _, _) => WithdrawCovered(w, c, now, key);
        case ClaimCall(_, _, _, _) => ClaimCovered(w, c, now, key);
        case EmergencyCall(_, _, _) => EmergencyCovered(w, c, now, key);
        case _ => AdminCovered(w, c, now, key);
      }
    }
  }

  // ----- every run

  /** Everything a grade emits over a run is paid, owed at the end, or within the stated losses. */
  lemma {:induction false} EmissionCovered(w: World, calls: seq<(Call, u32)>, key: GradeKey)
    requires Sound(w) && AdmissibleRun(w, calls) && FittingRun(w, calls, key)
    ensures var w' := Run(w, calls);
            var m, m' := MeterOf(w, key), MeterOf(w', key);
            && m'.emitted >= m.emitted && m'.paid >= m.paid
            && OwedBy(w.st, key) + REWARD_FACTOR * (m'.emitted - m.emitted) <=
               OwedBy(w'.st, key) + REWARD_FACTOR * (m'.paid - m.paid) + Lost(w, calls, key)
    decreases |calls|
  {
    hide Sound, Admissible, Step, Apply, OwedBy, Loss, Fits, MeterOf;
    if calls != [] {
      var c, now := calls[0].0, calls[0].1;
      StepSound(w, c, now);
      StepCovered(w, c, now, key);
      EmissionCovered(Step(w, c, now), calls[1..], key);
    }
  }
}

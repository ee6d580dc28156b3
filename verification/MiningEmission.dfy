/** Emission of the mining rewards: how often a pool is updated does not change
    what it emits, and a grade's budget is split between emitted and left. */
module MiningEmission {
  import opened Arithmetic
  import opened Tokens
  import opened Mining
  import opened MiningBound
  import opened MiningRuns

  // ----- path independence

  function Updates(p: StakePool, times: seq<u32>): StakePool
    decreases |times|
  {
    if times == [] then p else Updates(UpdatePool(p, times[0]), times[1..])
  }

  /** What a pool emits when it is next updated at block `to`. */
  function Emission(p: StakePool, to: u32): u128 { Min(SatSub(to, p.lastBlock) * p.perBlock, p.leftReward) }

  lemma PoolRewardIsEmission(p: StakePool, to: u32)
    ensures PoolReward(p.lastBlock, to, p.perBlock, p.leftReward) == Emission(p, to)
  {
  }

  /** `update_pool` on a staked pool, in closed form. */
  lemma UpdateClosed(p: StakePool, to: u32)
    requires p.totalLp > 0
    ensures var e := Emission(p, to);
            UpdatePool(p, to) == p.(leftReward := p.leftReward - e,
                                    perShare := SatAdd(p.perShare, PerShare(e, p.totalLp)),
                                    lastBlock := if to <= p.lastBlock then p.lastBlock else to)
  {
    PoolRewardIsEmission(p, to);
    if to <= p.lastBlock {
      assert SatSub(to, p.lastBlock) * p.perBlock == 0;
    }
    assert PerShare(0, p.totalLp) == 0;
  }

  lemma EmissionSplits(p: StakePool, q: StakePool, mid: u32, to: u32)
    requires mid <= to && q.perBlock == p.perBlock
    requires q.leftReward == p.leftReward - Emission(p, mid)
    requires q.lastBlock == if mid <= p.lastBlock then p.lastBlock else mid
    ensures Emission(p, to) == Emission(p, mid) + Emission(q, to)
  {
    var x, y, b := SatSub(mid, p.lastBlock), SatSub(to, q.lastBlock), p.perBlock;
    assert SatSub(to, p.lastBlock) == x + y;
    assert (x + y) * b == x * b + y * b;
  }

  lemma FloorSum(a: nat, b: nat, d: nat)
    requires d > 0
    ensures Floor(a, d) + Floor(b, d) <= Floor(a + b, d) <= Floor(a, d) + Floor(b, d) + 1
  {
    hide Floor;
    var x, y := Floor(a, d), Floor(b, d);
    FloorBounds(a, d);
    FloorBounds(b, d);
    FloorBounds(a + b, d);
    assert (x + y) * d == x * d + y * d;
    FloorAtLeast(a + b, d, x + y);
    assert (x + y + 2) * d == (x + y) * d + 2 * d;
    if Floor(a + b, d) > x + y + 1 {
      MulMono(x + y + 2, Floor(a + b, d), d);
    }
  }

  /** What two emissions give to each unit, against what their sum gives. */
  lemma PerShareSum(a: u128, b: u128, total: u128)
    requires total > 0 && a + b <= U128_MAX
    ensures PerShare(a + b, total) <= PerShare(a, total) + PerShare(b, total) + 1
    ensures (a + b) * REWARD_FACTOR <= U128_MAX ==> PerShare(a, total) + PerShare(b, total) <= PerShare(a + b, total)
  {
    hide Floor;
    var x: nat, y: nat := SatMul(a, REWARD_FACTOR), SatMul(b, REWARD_FACTOR);
    assert (a + b) * REWARD_FACTOR == a * REWARD_FACTOR + b * REWARD_FACTOR;
    FloorSum(x, y, total);
    FloorMono(SatMul(a + b, REWARD_FACTOR), x + y, total);
  }

  /** One update at `to` against an update at `mid` followed by one at `to`. */
  lemma TwoUpdates(p: StakePool, mid: u32, to: u32)
    requires p.totalLp > 0 && mid <= to
    ensures var q := UpdatePool(p, mid);
            var one, two := UpdatePool(p, to), UpdatePool(q, to);
            && q.totalLp == p.totalLp && Emission(q, to) <= Emission(p, to)
            && two == one.(perShare := two.perShare)
            && one.perShare <= two.perShare + 1
            && (Emission(p, to) * REWARD_FACTOR <= U128_MAX ==> two.perShare <= one.perShare)
  {
    hide PerShare, UpdatePool;
    var q, e0 := UpdatePool(p, mid), Emission(p, mid);
    MulMono(SatSub(mid, p.lastBlock), SatSub(to, p.lastBlock), p.perBlock);
    UpdateClosed(p, mid);
    UpdateClosed(p, to);
    EmissionSplits(p, q, mid, to);
    UpdateClosed(q, to);
    PerShareSum(e0, Emission(q, to), p.totalLp);
  }

  predicate Rising(times: seq<u32>) { forall i, j :: 0 <= i < j < |times| ==> times[i] <= times[j] }

  /** Over constant positive stake, n updates leave the same budget as one and a reward per share lower
      by at most n - 1; and not higher, as long as the scaled emission fits u128. */
  lemma {:induction false} EmissionPathIndependent(p: StakePool, times: seq<u32>)
    requires times != [] && Rising(times) && p.totalLp > 0
    ensures var one, many := UpdatePool(p, times[|times| - 1]), Updates(p, times);
            && many == one.(perShare := many.perShare)
            && one.perShare <= many.perShare + (|times| - 1)
            && (Emission(p, times[|times| - 1]) * REWARD_FACTOR <= U128_MAX ==> many.perShare <= one.perShare)
    decreases |times|
  {
    hide UpdatePool, Emission;
    var last := times[|times| - 1];
    if |times| == 1 {
      assert Updates(p, times) == Updates(UpdatePool(p, times[0]), []) == UpdatePool(p, times[0]);
    } else {
      TwoUpdates(p, times[0], last);
      MulMono(Emission(UpdatePool(p, times[0]), last), Emission(p, last), REWARD_FACTOR);
      EmissionPathIndependent(UpdatePool(p, times[0]), times[1..]);
    }
  }

  /** Two units staked, and an emission per block whose double no longer fits once scaled. */
  const WIDE_POOL := StakePool(false, 2, 0, WIDE, 2 * WIDE, 2 * WIDE, 0, 0, 0)

  const WIDE: u128 := 340_282_366_920_938_463_463_374_607

  /** Past that bound one update emits the same and credits about half of what two do. */
  lemma SaturationCredits()
    ensures var one, many := UpdatePool(WIDE_POOL, 2), Updates(WIDE_POOL, [1, 2]);
            many.leftReward == one.leftReward == 0 && one.perShare < many.perShare
  {
    hide Floor;
    FloorBounds(U128_MAX, 2);
    FloorBounds(WIDE * REWARD_FACTOR, 2);
    assert [1, 2][1..] == [2] && [2][1..] == [];
    var first: u32, second: u32 := 1, 2;
    var half := UpdatePool(WIDE_POOL, first);
    assert Updates(WIDE_POOL, [first, second]) == Updates(half, [second]) == Updates(UpdatePool(half, second), []);
  }

  // ----- the budget of a grade

  predicate Budgeted(w: World, i: u32, g: u32)
    requires HasGrade(w.st, i, g)
  {
    MeterOf(w, (i, g)).emitted + w.st.pools[i][g].leftReward == w.st.pools[i][g].totalReward
  }

  lemma UpdateKeepsTotal(p: StakePool, now: u32)
    ensures UpdatePool(p, now).totalReward == p.totalReward && UpdatePool(p, now).leftReward <= p.leftReward
  {
  }

  /** A new total keeps the budget split exactly when it does not cut below what was emitted. */
  lemma BudgetChange(w: World, i: u32, g: u32, perBlock: u128, total: u128, now: u32)
    requires HasGrade(w.st, i, g) && Budgeted(w, i, g)
    ensures HasGrade(Step(w, UpdateCall(i, g, perBlock, total), now).st, i, g)
    ensures Budgeted(Step(w, UpdateCall(i, g, perBlock, total), now), i, g) <==> total >= MeterOf(w, (i, g)).emitted
  {
  }

  /** The budget is split between emitted and left; before the grade exists, nothing is emitted. */
  predicate BudgetOk(w: World, i: u32, g: u32)
  {
    if HasGrade(w.st, i, g) then Budgeted(w, i, g) else MeterOf(w, (i, g)).emitted == 0
  }

  /** The call neither cuts the grade's total below what it has emitted nor removes the grade. */
  predicate Spares(w: World, c: Call, i: u32, g: u32)
  {
    && (c.UpdateCall? && (c.i, c.g) == (i, g) ==> c.total >= MeterOf(w, (i, g)).emitted)
    && (c.RemovePoolCall? ==> (c.i, c.g) != (i, g))
  }

  /** A user's call settles one grade, and at most moves its budget from left to emitted. */
  lemma DepositBudget(w: World, c: Call, now: u32, i: u32, g: u32)
    requires BudgetOk(w, i, g) && c.DepositCall?
    ensures BudgetOk(Step(w, c, now), i, g)
  {
    hide Accrued, UpdatePool, UnlocksBeforeEnd, Transfer, Free, SatAdd, Wrap32;
    if HasGrade(w.st, i, g) {
      UpdateKeepsTotal(w.st.pools[i][g], now);
    }
  }

  lemma WithdrawBudget(w: World, c: Call, now: u32, i: u32, g: u32)
    requires BudgetOk(w, i, g) && c.WithdrawCall?
    ensures BudgetOk(Step(w, c, now), i, g)
  {
    hide Accrued, UpdatePool, Transfer, Free, SatAdd, SatAdd32;
    if HasGrade(w.st, i, g) {
      UpdateKeepsTotal(w.st.pools[i][g], now);
    }
  }

  lemma ClaimBudget(w: World, c: Call, now: u32, i: u32, g: u32)
    requires BudgetOk(w, i, g) && (c.ClaimCall? || c.EmergencyCall?)
    ensures BudgetOk(Step(w, c, now), i, g)
  {
    hide Accrued, UpdatePool, Transfer, Free, SatAdd;
    if HasGrade(w.st, i, g) {
      UpdateKeepsTotal(w.st.pools[i][g], now);
    }
  }

  lemma AdminBudget(w: World, c: Call, now: u32, i: u32, g: u32)
    requires KeysOk(w.st) && Admissible(w.st, c) && BudgetOk(w, i, g) && Spares(w, c, i, g)
    requires !(c.DepositCall? || c.WithdrawCall? || c.ClaimCall? || c.EmergencyCall?)
    ensures BudgetOk(Step(w, c, now), i, g)
  {
    hide BankStep;
    if HasGrade(w.st, i, g) && c.UpdateCall? && (c.i, c.g) == (i, g) {
      BudgetChange(w, i, g, c.perBlock, c.total, now);
    }
  }

  lemma BudgetStep(w: World, c: Call, now: u32, i: u32, g: u32)
    requires Sound(w) && Admissible(w.st, c) && BudgetOk(w, i, g) && Spares(w, c, i, g)
    ensures BudgetOk(Step(w, c, now), i, g)
  {
    hide GradesOk, PastOk, VaultOk, KeysOk, Step, Spares, Admissible, BudgetOk;
    if c.DepositCall? {
      DepositBudget(w, c, now, i, g);
    } else if c.WithdrawCall? {
      WithdrawBudget(w, c, now, i, g);
    } else if c.ClaimCall? || c.EmergencyCall? {
      ClaimBudget(w, c, now, i, g);
    } else {
      AdminBudget(w, c, now, i, g);
    }
  }

  predicate NeverCut(w: World, calls: seq<(Call, u32)>, i: u32, g: u32)
    decreases |calls|
  {
    calls != [] ==> Spares(w, calls[0].0, i, g) && NeverCut(Step(w, calls[0].0, calls[0].1), calls[1..], i, g)
  }

  lemma {:induction false} BudgetInRuns(w: World, calls: seq<(Call, u32)>, i: u32, g: u32)
    requires Sound(w) && AdmissibleRun(w, calls) && NeverCut(w, calls, i, g) && BudgetOk(w, i, g)
    ensures BudgetOk(Run(w, calls), i, g)
    decreases |calls|
  {
    hide Sound, Step, BudgetOk, Spares;
    if calls != [] {
      StepSound(w, calls[0].0, calls[0].1);
      BudgetStep(w, calls[0].0, calls[0].1, i, g);
      BudgetInRuns(Step(w, calls[0].0, calls[0].1), calls[1..], i, g);
    }
  }

  /** So a grade never pays more than its current total reward, up to the same rounding. */
  lemma PaidWithinBudget(w: World, calls: seq<(Call, u32)>, i: u32, g: u32)
    requires Sound(w) && AdmissibleRun(w, calls) && NeverCut(w, calls, i, g) && BudgetOk(w, i, g)
    requires HasGrade(Run(w, calls).st, i, g)
    ensures var w' := Run(w, calls);
            var m := MeterOf(w', (i, g));
            REWARD_FACTOR * m.paid <= REWARD_FACTOR * w'.st.pools[i][g].totalReward + (REWARD_FACTOR - 1) * m.ops
  {
    hide Sound, Run, NeverCut, AdmissibleRun;
    BudgetInRuns(w, calls, i, g);
    PayoutBound(w, calls, i, g);
  }
}

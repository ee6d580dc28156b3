/** Why the laws of the pools carry their conditions: concrete runs, each from a chain without pools. */
module DexLimits {
  import opened Arithmetic
  import opened Primitives
  import opened Sums
  import opened SwapMath
  import opened Tokens
  import opened Dex
  import opened DexCustody
  import opened DexDepth
  import opened DexPricing

  /** The pool of RDOT, and the balances of one user beside the module's. */
  predicate Looks(d: State, pool: SwapPool, who: Account, fis: u128, rtoken: u128, lp: u128)
  {
    && RDOT in d.pools && d.pools[RDOT] == pool
    && Free(d.fis, MODULE) == pool.fis && Free(RBank(d, RDOT), MODULE) == pool.rtoken
       && LpBank(d, RDOT).issuance == pool.units
    && Free(d.fis, who) == fis && Free(RBank(d, RDOT), who) == rtoken && Free(LpBank(d, RDOT), who) == lp
  }

  function Start(fis: map<Account, u128>, rtoken: map<Account, u128>): State
  {
    State(map[], Bank(fis, 0), map[RDOT := Bank(rtoken, 0)], map[])
  }

  lemma Quotient(n: nat, d: nat, q: nat)
    requires q * d <= n < q * d + d
    ensures Floor(n, d) == q
  {
    FloorBounds(n, d);
    FloorUnique(n, d, Floor(n, d), q);
  }

  // ----- an emptied pool, seeded again

  function Small(): State { Start(map[7 := 10], map[7 := 10]) }

  const CREATE_SMALL := CreateCall(7, RDOT, 4, 4, true)
  const EMPTY_IT := RemoveCall(7, RDOT, 4, 0, 0, 0, true, true)
  const SEED_AGAIN := AddCall(7, RDOT, 1, 2, true, true)

  lemma SmallCreated()
    ensures Looks(Step(Small(), CREATE_SMALL), SwapPool(4, 4, 4), 7, 6, 6, 4)
  {
  }

  lemma SmallEmptied(d: State)
    requires Looks(d, SwapPool(4, 4, 4), 7, 6, 6, 4)
    ensures Looks(Step(d, EMPTY_IT), SwapPool(0, 0, 0), 7, 10, 10, 0)
  {
    hide CalRemoveResult;
    RemoveResultExact(SwapPool(4, 4, 4), 4, 0, true);
    RedeemIs(4, 4, 4);
    RedeemIs(0, 4, 4);
    FloorIsDivision(16, 4);
    FloorIsDivision(0, 4);
  }

  lemma SmallSeeded(d: State)
    requires Looks(d, SwapPool(0, 0, 0), 7, 10, 10, 0)
    ensures Looks(Step(d, SEED_AGAIN), SwapPool(2, 1, 2), 7, 8, 9, 2) && ProportionalTo(SwapPool(0, 0, 0), 2, 1)
  {
  }

  lemma RunOfTwo(d: State, x: Call, y: Call)
    ensures Run(d, [x, y]) == Step(Step(d, x), y)
  {
    hide Step;
    assert [x, y][1..] == [y] && [y][1..] == [];
    assert Run(Step(d, x), [y]) == Run(Step(Step(d, x), y), []);
  }

  /** Emptying a pool and adding to it again, in any ratio, may leave it less deep: from (4, 4, 4) to (2, 1, 2). */
  lemma ReseedLowersDepth()
    ensures Custody(Small()) && AdmissibleRun(Step(Small(), CREATE_SMALL), [EMPTY_IT, SEED_AGAIN])
    ensures var d := Step(Small(), CREATE_SMALL); var d' := Run(d, [EMPTY_IT, SEED_AGAIN]);
            && RDOT in d.pools && d.pools[RDOT] == SwapPool(4, 4, 4)
            && RDOT in d'.pools && d'.pools[RDOT] == SwapPool(2, 1, 2)
            && !Deeper(d.pools[RDOT], d'.pools[RDOT])
  {
    hide Step, DeeperBy;
    SmallCustody();
    var d := Step(Small(), CREATE_SMALL);
    SmallCreated();
    SmallEmptied(d);
    SmallSeeded(Step(d, EMPTY_IT));
    RunOfTwo(d, EMPTY_IT, SEED_AGAIN);
    DeeperIs(4, 4, 4, 2, 1, 2);
    assert [EMPTY_IT, SEED_AGAIN][1..] == [SEED_AGAIN] && [SEED_AGAIN][1..] == [];
    assert AdmissibleRun(Step(d, EMPTY_IT), [SEED_AGAIN]);
  }

  lemma SmallCustody()
    ensures Custody(Small())
  {
    var fis, rtoken: map<Account, u128> := map[7 := 10], map[7 := 10];
    OneHolding(7, 10);
    GenesisCustody(Bank(fis, 0), map[RDOT := Bank(rtoken, 0)]);
  }

  lemma OneHolding(who: Account, v: u128)
    ensures Holdings(Bank(map[who := v], 0)) == v
  {
    var none: map<Account, nat> := map[];
    SumInsert(none, who, v);
    assert none[who := v] == map[who := v];
  }

  // ----- a lopsided add

  function Tiny(): State { Start(map[7 := 200], map[7 := 100]) }

  const CREATE_TINY := CreateCall(7, RDOT, 1, 1, true)
  const LOPSIDED := AddCall(7, RDOT, 50, 100, true, true)

  lemma TinyCreated()
    ensures Looks(Step(Tiny(), CREATE_TINY), SwapPool(1, 1, 1), 7, 199, 99, 1)
  {
  }

  lemma LopsidedUnits()
    ensures CalPoolUnit(1, 1, 1, 100, 50) == (76, 75)
  {
    hide CalPoolUnit, Floor, RawUnits, Slip;
    PoolUnitExact(1, 1, 1, 100, 50);
    RawUnitsIs(1, 1, 1, 100, 50);
    Quotient(150, 2, 75);
    SlipIs(75, 1, 1, 100, 50);
    Quotient(75 * 50, 101 * 51, 0);
  }

  lemma LopsidedAdded(d: State)
    requires Looks(d, SwapPool(1, 1, 1), 7, 199, 99, 1)
    ensures Looks(Step(d, LOPSIDED), SwapPool(101, 51, 76), 7, 99, 49, 76)
  {
    hide CalPoolUnit;
    LopsidedUnits();
  }

  /** Adding out of proportion may leave a pool less deep, by the rounding of the slip: from (1, 1, 1) to
      (101, 51, 76). */
  lemma LopsidedLowersDepth()
    ensures Custody(Tiny())
    ensures var d := Step(Tiny(), CREATE_TINY); var d' := Step(d, LOPSIDED);
            && RDOT in d.pools && d.pools[RDOT] == SwapPool(1, 1, 1)
            && RDOT in d'.pools && d'.pools[RDOT] == SwapPool(101, 51, 76)
            && !Deeper(d.pools[RDOT], d'.pools[RDOT])
  {
    hide Step, DeeperBy;
    TinyCustody();
    TinyCreated();
    LopsidedAdded(Step(Tiny(), CREATE_TINY));
    DeeperIs(1, 1, 1, 101, 51, 76);
  }

  lemma TinyCustody()
    ensures Custody(Tiny())
  {
    OneHolding(7, 100);
    var fis: map<Account, u128>, rtoken: map<Account, u128> := map[7 := 200], map[7 := 100];
    GenesisCustody(Bank(fis, 0), map[RDOT := Bank(rtoken, 0)]);
  }

  // ----- an add whose total clamps

  /** 32*Q is just below u128. */
  const Q: u128 := 0x7FF_FFFF_FFFF_FFFF_FFFF_FFFF_FFFF_FFFF

  function Wide(): State { Start(map[7 := 32 * Q + 1, 8 := 1], map[7 := 4, 8 := 20]) }

  const CREATE_WIDE := CreateCall(7, RDOT, 4, 32 * Q, true)
  const FIRST_SWAP := SwapCall(8, RDOT, 4, 1, false, true)
  const SECOND_SWAP := SwapCall(8, RDOT, 8, 1, false, true)
  const WIDE_ADD := AddCall(8, RDOT, 8, 9 * Q, true, true)
  const WIDE_REMOVE := RemoveCall(8, RDOT, 16 * Q, 0, 0, 0, true, true)

  lemma WideCreated()
    ensures Looks(Step(Wide(), CREATE_WIDE), SwapPool(32 * Q, 4, 32 * Q), 8, 1, 20, 0)
  {
  }

  lemma WideSwaps(d: State)
    requires Looks(d, SwapPool(32 * Q, 4, 32 * Q), 8, 1, 20, 0)
    ensures Looks(Step(Step(d, FIRST_SWAP), SECOND_SWAP), SwapPool(18 * Q, 16, 32 * Q), 8, 14 * Q + 1, 8, 0)
  {
    hide CalSwapResult, Floor, SwapOut;
    SwapResultIsTradeOut(32 * Q, 4, 4, false);
    SwapOutIs(4, 4, 32 * Q);
    Quotient(4 * 4 * (32 * Q), 64, 8 * Q);
    SwapResultIsTradeOut(24 * Q, 8, 8, false);
    SwapOutIs(8, 8, 24 * Q);
    Quotient(8 * 8 * (24 * Q), 256, 6 * Q);
  }

  lemma WideUnits()
    ensures Units(32 * Q, 18 * Q, 16, 9 * Q, 8) == 16 * Q
    ensures CalPoolUnit(32 * Q, 18 * Q, 16, 9 * Q, 8) == (U128_MAX, 16 * Q)
  {
    hide CalPoolUnit, Floor, RawUnits, Slip;
    PoolUnitExact(32 * Q, 18 * Q, 16, 9 * Q, 8);
    RawUnitsIs(32 * Q, 18 * Q, 16, 9 * Q, 8);
    Quotient(32 * Q * (18 * Q * 8 + 9 * Q * 16), 16 * (18 * Q) * 2, 16 * Q);
    SlipIs(16 * Q, 18 * Q, 16, 9 * Q, 8);
    Quotient(0, (9 * Q + 18 * Q) * (8 + 16), 0);
  }

  lemma WideAdded(d: State)
    requires Looks(d, SwapPool(18 * Q, 16, 32 * Q), 8, 14 * Q + 1, 8, 0)
    ensures Looks(Step(d, WIDE_ADD), SwapPool(27 * Q, 24, U128_MAX), 8, 5 * Q + 1, 0, 16 * Q)
  {
    hide CalPoolUnit;
    WideUnits();
  }

  lemma WideRedeemed()
    ensures 13 * Q < Redeem(16 * Q, U128_MAX, 27 * Q) <= 14 * Q && Redeem(16 * Q, U128_MAX, 24) == 11
  {
    hide Floor, Redeem;
    RedeemIs(16 * Q, U128_MAX, 27 * Q);
    FloorAtLeast(16 * Q * (27 * Q), U128_MAX, 13 * Q + 1);
    FloorAtMost(16 * Q * (27 * Q), U128_MAX, 14 * Q);
    RedeemIs(16 * Q, U128_MAX, 24);
    Quotient(16 * Q * 24, U128_MAX, 11);
  }

  lemma WideRemoved(d: State)
    requires Looks(d, SwapPool(27 * Q, 24, U128_MAX), 8, 5 * Q + 1, 0, 16 * Q)
    ensures var d' := Step(d, WIDE_REMOVE); Free(d'.fis, 8) > 18 * Q && Free(RBank(d', RDOT), 8) == 11
  {
    hide CalRemoveResult, Redeem;
    RemoveResultExact(SwapPool(27 * Q, 24, U128_MAX), 16 * Q, 0, true);
    WideRedeemed();
    RedeemIs(0, U128_MAX, 27 * Q);
    Quotient(0, U128_MAX, 0);
  }

  /** An add whose total units clamp, and the removal of the units it granted, return more of both tokens:
      8 and 9*Q go in, 11 and more than 13*Q come out. */
  lemma ClampedAddGains()
    ensures Custody(Wide())
    ensures var d := Step(Step(Step(Wide(), CREATE_WIDE), FIRST_SWAP), SECOND_SWAP);
            var d' := Step(Step(d, WIDE_ADD), WIDE_REMOVE);
            && RDOT in d.pools && d.pools[RDOT] == SwapPool(18 * Q, 16, 32 * Q)
            && 32 * Q + Units(32 * Q, 18 * Q, 16, 9 * Q, 8) > U128_MAX
            && Free(d'.fis, 8) > Free(d.fis, 8) && Free(RBank(d', RDOT), 8) > Free(RBank(d, RDOT), 8)
  {
    hide Step, Units;
    WideCustody();
    WideCreated();
    WideSwaps(Step(Wide(), CREATE_WIDE));
    var d := Step(Step(Step(Wide(), CREATE_WIDE), FIRST_SWAP), SECOND_SWAP);
    WideUnits();
    WideAdded(d);
    WideRemoved(Step(d, WIDE_ADD));
  }

  lemma WideCustody()
    ensures Custody(Wide())
  {
    var one: map<Account, nat> := map[7 := 4];
    OneHolding(7, 4);
    SumInsert(one, 8, 20);
    var rtoken: map<Account, u128> := map[7 := 4, 8 := 20];
    assert one[8 := 20] == rtoken;
    GenesisCustody(Bank(map[7 := 32 * Q + 1, 8 := 1], 0), map[RDOT := Bank(rtoken, 0)]);
  }

  // ----- an add whose total clamps and that gains nothing

  const EVEN: SwapPool := SwapPool(0x10_0000_0000_0000_0000_0000_0000, 0x10_0000_0000_0000_0000_0000_0000, U128_MAX)

  lemma EvenUnits()
    ensures Units(U128_MAX, EVEN.fis, EVEN.rtoken, 1, 1) == 0xFFF_FFFF
    ensures CalPoolUnit(U128_MAX, EVEN.fis, EVEN.rtoken, 1, 1) == (U128_MAX, 0xFFF_FFFF)
  {
    hide CalPoolUnit, Floor, RawUnits, Slip;
    var x: nat := EVEN.fis;
    PoolUnitExact(U128_MAX, x, x, 1, 1);
    RawUnitsIs(U128_MAX, x, x, 1, 1);
    Quotient(U128_MAX * (x * 1 + 1 * x), x * x * 2, 0xFFF_FFFF);
    SlipIs(0xFFF_FFFF, x, x, 1, 1);
    Quotient(0, (1 + x) * (1 + x), 0);
  }

  /** So clamping does not decide the matter: here the total clamps, and the removal returns nothing at all. */
  lemma ClampedAddMayLose()
    ensures EVEN.units + Units(EVEN.units, EVEN.fis, EVEN.rtoken, 1, 1) > U128_MAX
    ensures var q := SwapPool(EVEN.fis + 1, EVEN.rtoken + 1, U128_MAX);
            BackOut(EVEN, q, 1, 1) == (0, 0) && NoGain(EVEN, 1, 1, BackOut(EVEN, q, 1, 1))
  {
    hide CalPoolUnit, CalRemoveResult, Redeem, Floor, Worth;
    EvenUnits();
    var q := SwapPool(EVEN.fis + 1, EVEN.rtoken + 1, U128_MAX);
    RemoveResultExact(q, 0xFFF_FFFF, 0, true);
    RedeemIs(0xFFF_FFFF, U128_MAX, q.fis);
    Quotient(0xFFF_FFFF * q.fis, U128_MAX, 0);
    WorthIs(EVEN, 0, 0);
    WorthIs(EVEN, 1, 1);
  }
}

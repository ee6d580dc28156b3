/** The payout bound over every run of the mining pallet. */
module MiningRuns {
  import opened Arithmetic
  import opened Sums
  import opened Tokens
  import opened Mining
  import opened MiningBound

  /** A call that leaves the state as it was, and pays nothing, keeps everything. */
  lemma UnchangedSound(w: World, w': World)
    requires Sound(w) && w'.st == w.st && forall x: GradeKey :: MeterOf(w', x) == MeterOf(w, x)
    ensures Sound(w')
  {
    hide Sum, GradeOk, Gone;
    forall i: u32, g: u32 | HasGrade(w'.st, i, g)
      ensures GradeOk(w'.st.pools[i][g], GradeStakes(w'.st.stakes, i, g), MeterOf(w', (i, g)))
    {
      assert GradeOk(w.st.pools[i][g], GradeStakes(w.st.stakes, i, g), MeterOf(w, (i, g)));
    }
    forall i: u32, g: u32 | !HasGrade(w'.st, i, g)
      ensures Gone(GradeStakes(w'.st.stakes, i, g), MeterOf(w', (i, g)))
    {
      assert Gone(GradeStakes(w.st.stakes, i, g), MeterOf(w, (i, g)));
    }
  }

  ghost predicate CountsGrow(d: State, d': State)
  {
    forall i: u32, who: Account :: Count(d, i, who) <= Count(d', i, who)
  }

  lemma KeysAfter(d: State, d': State, i: u32, g: u32, p: StakePool, key: StakeKey, s: Stake)
    requires KeysOk(d) && HasGrade(d, i, g) && key.0 == i && s.grade == g
    requires d'.pools == SetPool(d, i, g, p).pools && d'.poolCount == d.poolCount
    requires d'.stakes == d.stakes[key := s]
    requires CountsGrow(d, d') && key.2 < Count(d', i, key.1)
    ensures KeysOk(d')
  {
    forall k | k in d'.stakes
      ensures k.2 < Count(d', k.0, k.1)
    {
      if k != key {
        assert k.2 < Count(d, k.0, k.1);
      }
    }
  }

  lemma PastAfter(w: World, w': World, i: u32, g: u32, p: StakePool, key: StakeKey, s: Stake)
    requires PastOk(w) && HasGrade(w.st, i, g)
    requires key.0 == i && s.grade == g && (key in w.st.stakes ==> w.st.stakes[key].grade == g)
    requires w'.st.pools == SetPool(w.st, i, g, p).pools && w'.st.stakes == w.st.stakes[key := s]
    requires forall x: GradeKey :: x != (i, g) ==> MeterOf(w', x) == MeterOf(w, x)
    ensures PastOk(w')
  {
    hide Gone;
    forall j: u32, h: u32 | !HasGrade(w'.st, j, h)
      ensures Gone(GradeStakes(w'.st.stakes, j, h), MeterOf(w', (j, h)))
    {
      GradeStakesAfter(w.st.stakes, key, s, j, h);
      assert Gone(GradeStakes(w.st.stakes, j, h), MeterOf(w, (j, h)));
    }
  }

  /** Assembles soundness after a call that settled one stake of one grade. */
  lemma SoundAfter(w: World, w': World, i: u32, g: u32, p: StakePool, key: StakeKey, s: Stake)
    requires Sound(w) && HasGrade(w.st, i, g)
    requires key.0 == i && s.grade == g && (key in w.st.stakes ==> w.st.stakes[key].grade == g)
    requires w'.st.pools == SetPool(w.st, i, g, p).pools && w'.st.poolCount == w.st.poolCount
    requires w'.st.stakes == w.st.stakes[key := s]
    requires forall x: GradeKey :: x != (i, g) ==> MeterOf(w', x) == MeterOf(w, x)
    requires GradeOk(p, GradeStakes(w.st.stakes, i, g)[key := s], MeterOf(w', (i, g)))
    requires CountsGrow(w.st, w'.st) && key.2 < Count(w'.st, i, key.1)
    requires Holdings(w'.st.lp) <= U128_MAX
    requires Free(w.st.lp, MODULE) + s.lp <= Free(w'.st.lp, MODULE) + if key in w.st.stakes then w.st.stakes[key].lp
             else 0
    ensures Sound(w')
  {
    hide GradeOk, GradesOk, KeysOk, VaultOk, GradeStakes, PastOk, Count, CountsGrow;
    GradesAfter(w, w', i, g, p, key, s);
    KeysAfter(w.st, w'.st, i, g, p, key, s);
    VaultAfter(w.st, w'.st, key, s);
    PastAfter(w, w', i, g, p, key, s);
  }

  /** What soundness says about one grade, one new key and the vault. */
  lemma SoundParts(w: World, i: u32, g: u32)
    requires Sound(w) && HasGrade(w.st, i, g)
    ensures GradeOk(w.st.pools[i][g], GradeStakes(w.st.stakes, i, g), MeterOf(w, (i, g)))
    ensures Holdings(w.st.lp) <= U128_MAX
    ensures forall k :: k in w.st.stakes ==> k.2 < Count(w.st, k.0, k.1)
  {
  }

  lemma StakeInGrade(stakes: Stakes, key: StakeKey)
    requires key in stakes
    ensures var ss := GradeStakes(stakes, key.0, stakes[key].grade);
            key in ss && ss[key] == stakes[key]
  {
  }

  lemma NewKeyInNoGrade(stakes: Stakes, key: StakeKey, g: u32)
    requires key !in stakes
    ensures key !in GradeStakes(stakes, key.0, g)
  {
  }

  lemma DepositSound(w: World, who: Account, i: u32, g: u32, lp: u128, now: u32, allowed: bool, swapPoolExists: bool)
    requires Sound(w) && who != MODULE && Count(w.st, i, who) < U32_MAX
    ensures Sound(Step(w, DepositCall(who, i, g, lp, allowed, swapPoolExists), now))
  {
    hide Sum, GradeOk, GradesOk, KeysOk, VaultOk, PastOk, GradeStakes, Accrued, UpdatePool, UnlocksBeforeEnd;
    var c := DepositCall(who, i, g, lp, allowed, swapPoolExists);
    var out, w' := Deposit(w.st, who, i, g, lp, now, allowed, swapPoolExists), Step(w, c, now);
    if out.error.Some? {
      UnchangedSound(w, w');
    } else {
      var pool, ss, m := w.st.pools[i][g], GradeStakes(w.st.stakes, i, g), MeterOf(w, (i, g));
      var k := Count(w.st, i, who);
      var pool' := UpdatePool(pool, now);
      var s := Stake(lp, Accrued(lp, pool'.perShare), now, g, 0);
      SoundParts(w, i, g);
      NewKeyInNoGrade(w.st.stakes, (i, who, k), g);
      GradeWithinVault(w, i, g);
      TransferConserves(w.st.lp, who, MODULE, lp);
      UpdateEffect(pool, now);
      EmissionKeeps(pool, ss, m, now);
      DepositKeeps(pool', ss, m.(emitted := m.emitted + (pool.leftReward - pool'.leftReward)), (i, who, k), s);
      SoundAfter(w, w', i, g, pool'.(totalLp := pool'.totalLp + lp), (i, who, k), s);
    }
  }

  lemma WithdrawSound(w: World, who: Account, i: u32, k: u32, lp: u128, now: u32, payable: bool)
    requires Sound(w) && who != MODULE
    ensures Sound(Step(w, WithdrawCall(who, i, k, lp, payable), now))
    ensures Withdraw(w.st, who, i, k, lp, now, payable).error.Some? ==>
            Withdraw(w.st, who, i, k, lp, now, payable).paid == 0
  {
    hide Sum, GradeOk, GradesOk, KeysOk, VaultOk, PastOk, GradeStakes, Accrued, UpdatePool, UnlocksBeforeEnd;
    var out, w' := Withdraw(w.st, who, i, k, lp, now, payable), Step(w, WithdrawCall(who, i, k, lp, payable), now);
    var key := (i, who, k);
    if key in w.st.stakes && HasGrade(w.st, i, w.st.stakes[key].grade) && lp <= w.st.stakes[key].lp {
      var user := w.st.stakes[key];
      var g := user.grade;
      var pool, ss, m := w.st.pools[i][g], GradeStakes(w.st.stakes, i, g), MeterOf(w, (i, g));
      SoundParts(w, i, g);
      StakeInVault(w, key);
      TransferFailsOnlyShort(w.st.lp, MODULE, who, lp);
      if out.error.None? {
        var pool' := UpdatePool(pool, now);
        var s := w'.st.stakes[key];
        StakeInGrade(w.st.stakes, key);
        TransferConserves(w.st.lp, MODULE, who, lp);
        UpdateEffect(pool, now);
        EmissionKeeps(pool, ss, m, now);
        WithdrawKeeps(pool', ss, m.(emitted := m.emitted + (pool.leftReward - pool'.leftReward)), key, s);
        SoundAfter(w, w', i, g, pool'.(totalLp := pool'.totalLp - lp), key, s);
      }
    }
    if out.error.Some? {
      UnchangedSound(w, w');
    }
  }

  lemma StakeInVault(w: World, key: StakeKey)
    requires Sound(w) && key in w.st.stakes
    ensures w.st.stakes[key].lp <= Free(w.st.lp, MODULE)
  {
    SumMember(LpOf(w.st.stakes), key);
  }

  lemma ClaimSound(w: World, who: Account, i: u32, k: u32, now: u32, payable: bool)
    requires Sound(w) && who != MODULE
    ensures Sound(Step(w, ClaimCall(who, i, k, payable), now))
  {
    hide Sum, GradeOk, GradesOk, KeysOk, VaultOk, PastOk, GradeStakes, Accrued, UpdatePool, UnlocksBeforeEnd;
    var out, w' := ClaimReward(w.st, who, i, k, now, payable), Step(w, ClaimCall(who, i, k, payable), now);
    if out.error.Some? {
      UnchangedSound(w, w');
    } else {
      var key := (i, who, k);
      var g := w.st.stakes[key].grade;
      var pool, ss, m := w.st.pools[i][g], GradeStakes(w.st.stakes, i, g), MeterOf(w, (i, g));
      var pool' := UpdatePool(pool, now);
      var s := w'.st.stakes[key];
      SoundParts(w, i, g);
      UpdateEffect(pool, now);
      StakeInGrade(w.st.stakes, key);
      EmissionKeeps(pool, ss, m, now);
      ClaimKeeps(pool', ss, m.(emitted := m.emitted + (pool.leftReward - pool'.leftReward)), key, s);
      SoundAfter(w, w', i, g, pool', key, s);
    }
  }

  lemma EmergencySound(w: World, who: Account, i: u32, k: u32, now: u32)
    requires Sound(w) && who != MODULE
    ensures Sound(Step(w, EmergencyCall(who, i, k), now))
  {
    hide Sum, GradeOk, GradesOk, KeysOk, VaultOk, PastOk, GradeStakes, Accrued, UpdatePool, UnlocksBeforeEnd;
    var out, w' := EmergencyWithdraw(w.st, who, i, k), Step(w, EmergencyCall(who, i, k), now);
    if out.error.Some? {
      UnchangedSound(w, w');
    } else {
      var key := (i, who, k);
      var g := w.st.stakes[key].grade;
      var pool, ss, m := w.st.pools[i][g], GradeStakes(w.st.stakes, i, g), MeterOf(w, (i, g));
      TransferConserves(w.st.lp, MODULE, who, w.st.stakes[key].lp);
      SoundParts(w, i, g);
      StakeInGrade(w.st.stakes, key);
      EmergencyKeeps(pool, ss, m, key, w'.st.stakes[key]);
      SoundAfter(w, w', i, g, pool.(totalLp := pool.totalLp - w.st.stakes[key].lp), key, w'.st.stakes[key]);
    }
  }

  /** Calls that change no stake: grades that stay keep their stake total and reward per share, and those
      that come or go are empty. */
  lemma AdminSound(w: World, w': World)
    requires Sound(w) && w'.meters == w.meters && w'.st.stakes == w.st.stakes && w'.st.counts == w.st.counts
    requires w'.st.poolCount >= w.st.poolCount
    requires forall i: u32 :: i in w'.st.pools ==> i < w'.st.poolCount
    requires forall i: u32, g: u32 :: HasGrade(w.st, i, g) && HasGrade(w'.st, i, g) ==>
               && w'.st.pools[i][g].totalLp == w.st.pools[i][g].totalLp
               && w'.st.pools[i][g].perShare == w.st.pools[i][g].perShare
    requires forall i: u32, g: u32 :: HasGrade(w'.st, i, g) && !HasGrade(w.st, i, g) ==> w'.st.pools[i][g].totalLp == 0
    requires forall i: u32, g: u32 :: HasGrade(w.st, i, g) && !HasGrade(w'.st, i, g) ==> w.st.pools[i][g].totalLp == 0
    requires VaultOk(w'.st)
    ensures Sound(w')
  {
    hide Sum, GradeOk, Gone;
    forall i: u32, g: u32 | HasGrade(w'.st, i, g)
      ensures GradeOk(w'.st.pools[i][g], GradeStakes(w'.st.stakes, i, g), MeterOf(w', (i, g)))
    {
      if HasGrade(w.st, i, g) {
        SameGradeOk(w.st.pools[i][g], w'.st.pools[i][g], GradeStakes(w.st.stakes, i, g), MeterOf(w, (i, g)));
      } else {
        assert Gone(GradeStakes(w.st.stakes, i, g), MeterOf(w, (i, g)));
        GoneIsEmpty(w'.st.pools[i][g], GradeStakes(w.st.stakes, i, g), MeterOf(w, (i, g)));
      }
    }
    forall i: u32, g: u32 | !HasGrade(w'.st, i, g)
      ensures Gone(GradeStakes(w'.st.stakes, i, g), MeterOf(w', (i, g)))
    {
      if HasGrade(w.st, i, g) {
        assert GradeOk(w.st.pools[i][g], GradeStakes(w.st.stakes, i, g), MeterOf(w, (i, g)));
        EmptyIsGone(w.st.pools[i][g], GradeStakes(w.st.stakes, i, g), MeterOf(w, (i, g)));
      } else {
        assert Gone(GradeStakes(w.st.stakes, i, g), MeterOf(w, (i, g)));
      }
    }
  }

  lemma SameGradeOk(p: StakePool, q: StakePool, ss: Stakes, m: Meter)
    requires GradeOk(p, ss, m) && q.totalLp == p.totalLp && q.perShare == p.perShare
    ensures GradeOk(q, ss, m)
  {
  }

  lemma ReplaceSound(w: World, i: u32, g: u32, p: StakePool)
    requires Sound(w) && HasGrade(w.st, i, g)
    requires p.totalLp == w.st.pools[i][g].totalLp && p.perShare == w.st.pools[i][g].perShare
    ensures Sound(World(SetPool(w.st, i, g, p), w.meters))
  {
    hide Sum, GradesOk;
    AdminSound(w, World(SetPool(w.st, i, g, p), w.meters));
  }

  lemma AddPoolSound(w: World, i: u32, p: StakePool)
    requires Sound(w) && i in w.st.pools && p.totalLp == 0
    ensures Sound(World(w.st.(pools := w.st.pools[i := w.st.pools[i] + [p]]), w.meters))
  {
    hide Sum, GradesOk;
    AdminSound(w, World(w.st.(pools := w.st.pools[i := w.st.pools[i] + [p]]), w.meters));
  }

  lemma RemoveSound(w: World, i: u32)
    requires Sound(w) && i in w.st.pools && w.st.pools[i] != [] && w.st.pools[i][|w.st.pools[i]| - 1].totalLp == 0
    ensures Sound(World(w.st.(pools := w.st.pools[i := w.st.pools[i][..|w.st.pools[i]| - 1]]), w.meters))
  {
    hide Sum, GradesOk, PastOk;
    AdminSound(w, World(w.st.(pools := w.st.pools[i := w.st.pools[i][..|w.st.pools[i]| - 1]]), w.meters));
  }

  lemma IncreaseSound(w: World)
    requires Sound(w) && w.st.poolCount < U32_MAX
    ensures Sound(World(w.st.(pools := w.st.pools[w.st.poolCount := []], poolCount := w.st.poolCount + 1), w.meters))
  {
    hide Sum, GradesOk;
    AdminSound(w, World(w.st.(pools := w.st.pools[w.st.poolCount := []], poolCount := w.st.poolCount + 1), w.meters));
  }

  lemma AdminCallSound(w: World, c: Call, now: u32)
    requires Sound(w) && Admissible(w.st, c)
    requires c.AddPoolCall? || c.UpdateCall? || c.RemovePoolCall? || c.IncreaseCall? || c.SwitchCall?
    ensures Sound(Step(w, c, now))
  {
    hide Sound;
    var d' := Step(w, c, now).st;
    match c {
      case AddPoolCall(i, _, _, _, _) =>
        if i in w.st.pools {
          AddPoolSound(w, i, d'.pools[i][|w.st.pools[i]|]);
        }
      case UpdateCall(i, g, _, _) =>
        if HasGrade(w.st, i, g) {
          ReplaceSound(w, i, g, d'.pools[i][g]);
        }
      case RemovePoolCall(i, g) =>
        if HasGrade(w.st, i, g) && w.st.pools[i][g].totalLp == 0 {
          RemoveSound(w, i);
          assert w.st.pools[i][..g] + w.st.pools[i][g + 1..] == w.st.pools[i][..g];
        }
      case SwitchCall(i, g) =>
        if HasGrade(w.st, i, g) {
          ReplaceSound(w, i, g, d'.pools[i][g]);
        }
      case IncreaseCall => IncreaseSound(w);
    }
  }

  lemma LpCallSound(w: World, c: Call, now: u32)
    requires Sound(w) && Admissible(w.st, c) && c.LpCall?
    ensures Sound(Step(w, c, now))
  {
    hide Sum;
    match c.lpCall {
      case TransferCall(from, to, v) =>
        TransferConserves(w.st.lp, from, to, v);
        if from != MODULE && to != MODULE {
          TransferOthers(w.st.lp, from, to, v, MODULE);
        }
      case MintCall(to, v) => MintAdds(w.st.lp, to, v);
      case BurnCall(from, v) => BurnSubtracts(w.st.lp, from, v);
    }
    AdminSound(w, Step(w, c, now));
  }

  lemma StepSound(w: World, c: Call, now: u32)
    requires Sound(w) && Admissible(w.st, c)
    ensures Sound(Step(w, c, now))
  {
    hide Sound;
    match c {
      case DepositCall(who, i, g, lp, allowed, exists_) => DepositSound(w, who, i, g, lp, now, allowed, exists_);
      case WithdrawCall(who, i, k, lp, payable) => WithdrawSound(w, who, i, k, lp, now, payable);
      case ClaimCall(who, i, k, payable) => ClaimSound(w, who, i, k, now, payable);
      case EmergencyCall(who, i, k) => EmergencySound(w, who, i, k, now);
      case LpCall(_, _) => LpCallSound(w, c, now);
      case _ => AdminCallSound(w, c, now);
    }
  }

  lemma {:induction false} RunSound(w: World, calls: seq<(Call, u32)>)
    requires Sound(w) && AdmissibleRun(w, calls)
    ensures Sound(Run(w, calls))
    decreases |calls|
  {
    hide Sound;
    if calls != [] {
      StepSound(w, calls[0].0, calls[0].1);
      RunSound(Step(w, calls[0].0, calls[0].1), calls[1..]);
    }
  }

  lemma GenesisSound(lp: Bank)
    requires Holdings(lp) <= U128_MAX
    ensures Sound(World(State(map[], 0, map[], map[], lp), map[]))
  {
    assert LpOf(map[]) == map[];
  }

  lemma StakeCovered(w: World, k: StakeKey)
    requires Sound(w) && k in w.st.stakes
    ensures var d := w.st;
            if HasGrade(d, k.0, d.stakes[k].grade)
            then d.stakes[k].debt <= Accrued(d.stakes[k].lp, d.pools[k.0][d.stakes[k].grade].perShare)
            else d.stakes[k].lp == 0
  {
    var h := w.st.stakes[k].grade;
    assert k in GradeStakes(w.st.stakes, k.0, h);
    if HasGrade(w.st, k.0, h) {
      assert GradeOk(w.st.pools[k.0][h], GradeStakes(w.st.stakes, k.0, h), MeterOf(w, (k.0, h)));
    } else {
      assert Gone(GradeStakes(w.st.stakes, k.0, h), MeterOf(w, (k.0, h)));
    }
  }

  /** Over any run, every grade has paid at most what it emitted, plus less than one
      unit for each deposit and withdrawal; and no stake's debt exceeds what it accrued. A grade
      added where another was removed goes on with its history. */
  lemma PayoutBound(w: World, calls: seq<(Call, u32)>, i: u32, g: u32)
    requires Sound(w) && AdmissibleRun(w, calls)
    ensures var m := MeterOf(Run(w, calls), (i, g));
            REWARD_FACTOR * m.paid <= REWARD_FACTOR * m.emitted + (REWARD_FACTOR - 1) * m.ops
    ensures var d := Run(w, calls).st;
            forall k :: k in d.stakes ==>
              if HasGrade(d, k.0, d.stakes[k].grade)
              then d.stakes[k].debt <= Accrued(d.stakes[k].lp, d.pools[k.0][d.stakes[k].grade].perShare)
              else d.stakes[k].lp == 0
  {
    RunSound(w, calls);
    var w' := Run(w, calls);
    if HasGrade(w'.st, i, g) {
      assert GradeOk(w'.st.pools[i][g], GradeStakes(w'.st.stakes, i, g), MeterOf(w', (i, g)));
    } else {
      assert Gone(GradeStakes(w'.st.stakes, i, g), MeterOf(w', (i, g)));
    }
    forall k | k in w'.st.stakes
      ensures if HasGrade(w'.st, k.0, w'.st.stakes[k].grade)
              then w'.st.stakes[k].debt <= Accrued(w'.st.stakes[k].lp, w'.st.pools[k.0][w'.st.stakes[k].grade].perShare)
              else w'.st.stakes[k].lp == 0
    {
      StakeCovered(w', k);
    }
  }
}

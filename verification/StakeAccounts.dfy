/** The stake of a pool is exact: through bonds, unbonds and reports it is what was last snapshotted or
    reported, plus what was bonded since, less what was unbonded since. */
module StakeAccounts {
  import opened Arithmetic
  import opened Rate
  import opened Sums
  import opened Tokens
  import opened Ledger
  import opened Series
  import opened Staking
  import opened EraMachine
  import opened Pipelines

  // ----- one active report

  /** What an active report leaves, on its own pool and on the others: the stake is what it was, plus what is
      reported, less what was snapshotted, clamped at both ends; what is unstaked is bonded again. */
  lemma ReportLeaves(l: Ledger, c: Call)
    requires IsActiveReport(c) && LedgerStep(l, c).1.None? && c.id in l.shots
    ensures var snap, l' := l.shots[c.id], LedgerStep(l, c).0;
            var pipe, pipe' := PipeOf(l, snap.pool), PipeOf(l', snap.pool);
            var sum := Min(pipe.active + Min(ReportedBy(c), U128_MAX), U128_MAX);
            && pipe'.active == (if sum >= snap.active then sum - snap.active else 0)
            && (c.Active? ==> pipe'.bond == pipe.bond && pipe'.unbond == pipe.unbond)
            && (c.NewActive? ==> pipe'.bond == Min(pipe.bond + c.unstaked, U128_MAX) && pipe'.unbond == pipe.unbond)
            && (forall p: PoolId :: p != snap.pool ==> PipeOf(l', p) == PipeOf(l, p))
  {
    hide LedgerStep, MintFee, RateOf, Without, EraList, Deducted;
    ActiveStep(l, c);
  }

  /** The report is not clamped: seen before the call. */
  predicate Unclamped(l: Ledger, c: Call)
    requires IsActiveReport(c) && c.id in l.shots
  {
    var snap := l.shots[c.id];
    snap.active <= PipeOf(l, snap.pool).active + ReportedBy(c) <= U128_MAX
  }

  // ----- over runs

  /** While its active stake is not reported: the pool holds what was snapshotted, with what was bonded and unbonded
      since. */
  predicate OpenExact(l: Ledger, added: Added)
  {
    forall id :: id in l.shots && Open(l.shots[id].state) ==>
      PipeOf(l, l.shots[id].pool).active + At(added.unbond, l.shots[id].pool)
      == l.shots[id].active + At(added.bond, l.shots[id].pool)
  }

  /** The snapshot is reported, and none of its pool is still open. */
  predicate Done(l: Ledger, id: ShotId)
  {
    && id in l.shots && !Open(l.shots[id].state)
    && forall i :: i in l.shots && Open(l.shots[i].state) ==> l.shots[i].pool != l.shots[id].pool
  }

  /** Afterwards, until the next era: what was reported, with what was bonded and unbonded since the snapshot. */
  predicate ReportedExact(l: Ledger, added: Added, reported: map<ShotId, nat>)
  {
    forall id :: id in reported ==>
      && Done(l, id)
      && PipeOf(l, l.shots[id].pool).active + At(added.unbond, l.shots[id].pool)
         == reported[id] + At(added.bond, l.shots[id].pool)
  }

  /** The unclamped reports of the current era. */
  function ReportedStep(st: State, reported: map<ShotId, nat>, c: Call): map<ShotId, nat>
  {
    if !Apply(st, c).1 then reported
    else if c.NewEra? then map[]
    else if IsActiveReport(c) && c.id in st.l.shots && Unclamped(st.l, c) then reported[c.id := ReportedBy(c)]
    else reported
  }

  predicate Accounted(l: Ledger, added: Added, reported: map<ShotId, nat>)
  {
    OpenExact(l, added) && ReportedExact(l, added, reported)
  }

  lemma NewEraAccounts(l: Ledger, e: u32)
    requires EraInv(l) && SetChainEra(l, e).1.None?
    ensures Accounted(SetChainEra(l, e).0, NOTHING, map[])
  {
    hide CurrentOk, EraListsOk, NowOk, ShotsOf, OnePerPool;
    var l' := SetChainEra(l, e).0;
    ShotsDistinct(l, l.bonded, e, l.lastVoter.value);
    AllFinished(l);
    assert forall id :: id in l.shots ==> !Open(l.shots[id].state);
    forall id | id in l'.shots && Open(l'.shots[id].state)
      ensures PipeOf(l', l'.shots[id].pool).active == l'.shots[id].active
    {
      assert id in l'.curShots;
    }
  }

  /** A report that moves a snapshot on without reporting its stake. */
  lemma MoveAccounts(l: Ledger, added: Added, reported: map<ShotId, nat>, l': Ledger, id: ShotId)
    requires Accounted(l, added, reported) && id in l.shots && id in l'.shots
    requires l'.shots == l.shots[id := l.shots[id].(state := l'.shots[id].state)]
    requires Open(l'.shots[id].state) == Open(l.shots[id].state)
    requires forall p: PoolId :: PipeOf(l', p).active == PipeOf(l, p).active
    ensures Accounted(l', added, reported)
  {
    hide PipeOf, At;
    forall i | i in reported
      ensures Done(l', i)
    {
      assert Done(l, i);
    }
  }

  lemma OneOpen(l: Ledger, id: ShotId)
    requires EraInv(l) && id in l.shots && Open(l.shots[id].state)
    ensures forall i :: i in l.shots && Open(l.shots[i].state) && l.shots[i].pool == l.shots[id].pool ==> i == id
  {
  }

  lemma ReportAccounted(l: Ledger, added: Added, reported: map<ShotId, nat>, l': Ledger, c: Call)
    requires EraInv(l) && Accounted(l, added, reported)
    requires IsActiveReport(c) && LedgerStep(l, c).1.None? && l' == LedgerStep(l, c).0
    ensures c.id in l.shots
    ensures Accounted(l', added, if Unclamped(l, c) then reported[c.id := ReportedBy(c)] else reported)
  {
    hide EraInv, LedgerStep, PipeOf, At, Done;
    ActiveStep(l, c);
    ReportLeaves(l, c);
    OneOpen(l, c.id);
    ReportMoves(l, c);
    ReportEnds(l, l', c.id);
    forall i | i in reported
      ensures i in l.shots && Done(l', i) && l.shots[i].pool != l.shots[c.id].pool
    {
      StaysDone(l, l', c.id, i);
    }
  }

  /** A reported snapshot was the last open one of its pool. */
  lemma ReportEnds(l: Ledger, l': Ledger, id: ShotId)
    requires EraInv(l) && id in l.shots && Open(l.shots[id].state) && id in l'.shots && !Open(l'.shots[id].state)
    requires l'.shots == l.shots[id := l.shots[id].(state := l'.shots[id].state)]
    ensures Done(l', id)
  {
    OneOpen(l, id);
  }

  lemma StaysDone(l: Ledger, l': Ledger, id: ShotId, i: ShotId)
    requires id in l.shots && Open(l.shots[id].state) && id in l'.shots && !Open(l'.shots[id].state)
    requires l'.shots == l.shots[id := l.shots[id].(state := l'.shots[id].state)]
    requires Done(l, i)
    ensures i in l.shots && Done(l', i) && l.shots[i].pool != l.shots[id].pool
  {
  }

  lemma ReportMoves(l: Ledger, c: Call)
    requires IsActiveReport(c) && LedgerStep(l, c).1.None?
    ensures var l' := LedgerStep(l, c).0;
            && c.id in l.shots && c.id in l'.shots && !Open(l'.shots[c.id].state)
            && l'.shots == l.shots[c.id := l.shots[c.id].(state := l'.shots[c.id].state)]
  {
    hide LedgerStep, MintFee, RateOf, Without, EraList, Deducted;
    ActiveStep(l, c);
  }

  lemma SameAccounts(l: Ledger, added: Added, reported: map<ShotId, nat>, l': Ledger)
    requires Accounted(l, added, reported) && l'.shots == l.shots
    requires forall id :: id in l.shots ==> PipeOf(l', l.shots[id].pool) == PipeOf(l, l.shots[id].pool)
    ensures Accounted(l', added, reported)
  {
    hide PipeOf, At;
    forall i | i in reported
      ensures Done(l', i)
    {
      assert Done(l, i);
    }
  }

  lemma AddAccounts(l: Ledger, added: Added, reported: map<ShotId, nat>, l': Ledger, added': Added, pool: PoolId,
                    b: nat, u: nat)
    requires Accounted(l, added, reported) && l'.shots == l.shots
    requires forall p: PoolId :: p != pool ==> PipeOf(l', p) == PipeOf(l, p)
    requires PipeOf(l', pool).active + u == PipeOf(l, pool).active + b
    requires forall p: PoolId :: At(added'.bond, p) == At(added.bond, p) + if p == pool then b else 0
    requires forall p: PoolId :: At(added'.unbond, p) == At(added.unbond, p) + if p == pool then u else 0
    ensures Accounted(l', added', reported)
  {
    hide PipeOf, At;
    forall i | i in reported
      ensures Done(l', i)
    {
      assert Done(l, i);
    }
  }

  lemma ExecuteAccounts(st: State, added: Added, reported: map<ShotId, nat>, c: Call)
    requires Accounted(st.l, added, reported) && c.Execute?
    ensures Accounted(Apply(st, c).0.l, AddedStep(st, added, c), reported)
  {
    hide Accounted, TokenToRtoken;
    var st' := Apply(st, c).0;
    if Apply(st, c).1 && c.pass {
      var record := st.s.records[c.bond];
      AddAccounts(st.l, added, reported, st'.l, AddedStep(st, added, c), record.pool, record.amount, 0);
    } else {
      SameAccounts(st.l, added, reported, st'.l);
    }
  }

  lemma UnbondAccounts(st: State, added: Added, reported: map<ShotId, nat>, c: Call)
    requires Accounted(st.l, added, reported) && c.Unbond?
    ensures Accounted(Apply(st, c).0.l, AddedStep(st, added, c), reported)
  {
    hide Accounted, RtokenToToken, Pruned, Wrap32, Transfer, Burn, Free;
    var st' := Apply(st, c).0;
    if Apply(st, c).1 {
      AddAccounts(st.l, added, reported, st'.l, AddedStep(st, added, c), c.pool, 0, LastChunk(st'.s, c.who));
    } else {
      SameAccounts(st.l, added, reported, st'.l);
    }
  }

  lemma InitBondAccounts(l: Ledger, added: Added, reported: map<ShotId, nat>, pool: PoolId, who: Account, amount: u128)
    requires EraInv(l) && Accounted(l, added, reported)
    ensures Accounted(SetInitBond(l, pool, who, amount).0, added, reported)
  {
    hide CurrentOk, EraListsOk, NowOk, OnePerPool, TokenToRtoken, RateOf, Accounted;
    SameAccounts(l, added, reported, SetInitBond(l, pool, who, amount).0);
  }

  lemma BondedAccounts(l: Ledger, added: Added, reported: map<ShotId, nat>, c: Call)
    requires Accounted(l, added, reported) && (c.Bonded? || c.Withdrawn? || c.Transferred?) && LedgerStep(l, c).1.None?
    ensures Accounted(LedgerStep(l, c).0, added, reported)
  {
    hide Accounted, EraList, Without;
    MoveAccounts(l, added, reported, LedgerStep(l, c).0, c.id);
  }

  lemma QuietAccounts(l: Ledger, added: Added, reported: map<ShotId, nat>, c: Call)
    requires Accounted(l, added, reported) && (LedgerStep(l, c).1.Some? || (!IsReport(c) && !c.NewEra? && !c.InitBond?))
    ensures Accounted(LedgerStep(l, c).0, added, reported)
  {
    hide Accounted, MintFee, CountActive, RateOf, Deducted, TokenToRtoken, ShotsOf, Without, EraList;
    SameAccounts(l, added, reported, LedgerStep(l, c).0);
  }

  lemma StepAccounts(st: State, added: Added, reported: map<ShotId, nat>, c: Call)
    requires Sound(st) && Accounted(st.l, added, reported)
    ensures Accounted(Apply(st, c).0.l, AddedStep(st, added, c), ReportedStep(st, reported, c))
  {
    hide EraInv, RecordsOk, Accounted, Unclamped;
    hide ReportActive, BondReport, WithdrawReport, TransferReport, SetChainEra, SetInitBond, ExecuteBond,
         LiquidityUnbond;
    if c.Execute? {
      ExecuteAccounts(st, added, reported, c);
    } else if c.Unbond? {
      UnbondAccounts(st, added, reported, c);
    } else if c.Submit? || c.SetDuration? || c.SetLimit? {
      assert Apply(st, c).0.l == st.l;
    } else if c.InitBond? {
      InitBondAccounts(st.l, added, reported, c.pool, c.who, c.amount);
    } else if !Apply(st, c).1 || (!IsReport(c) && !c.NewEra?) {
      QuietAccounts(st.l, added, reported, c);
    } else if c.NewEra? {
      NewEraAccounts(st.l, c.e);
    } else if IsActiveReport(c) {
      ReportAccounted(st.l, added, reported, Apply(st, c).0.l, c);
    } else {
      BondedAccounts(st.l, added, reported, c);
    }
  }

  function ReportedRun(st: State, reported: map<ShotId, nat>, calls: seq<Call>): map<ShotId, nat>
    decreases |calls|
  {
    if calls == [] then reported else ReportedRun(Apply(st, calls[0]).0, ReportedStep(st, reported, calls[0]),
                                                  calls[1..])
  }

  /** In every state of every run: the stake of a pool with an open snapshot is what was snapshotted plus what was
      bonded less what was unbonded since; once reported without clamping, what was reported takes its place. */
  lemma {:induction false} StakeInRuns(st: State, added: Added, reported: map<ShotId, nat>, calls: seq<Call>)
    requires Sound(st) && Accounted(st.l, added, reported)
    ensures Accounted(Run(st, calls).l, AddedRun(st, added, calls), ReportedRun(st, reported, calls))
    decreases |calls|
  {
    hide Sound, Accounted, Apply, AddedStep, ReportedStep;
    if calls != [] {
      StepKeeps(st, calls[0]);
      StepAccounts(st, added, reported, calls[0]);
      StakeInRuns(Apply(st, calls[0]).0, AddedStep(st, added, calls[0]), ReportedStep(st, reported, calls[0]),
                  calls[1..]);
    }
  }

  /** So right after an unclamped report. */
  lemma ReportedStake(l: Ledger, added: Added, c: Call)
    requires EraInv(l) && OpenExact(l, added) && IsActiveReport(c) && LedgerStep(l, c).1.None?
    ensures c.id in l.shots
    ensures var pool := l.shots[c.id].pool; Unclamped(l, c) ==>
              PipeOf(LedgerStep(l, c).0, pool).active + At(added.unbond, pool) == ReportedBy(c) + At(added.bond, pool)
  {
    hide EraInv, LedgerStep, PipeOf, At;
    ActiveStep(l, c);
    ReportLeaves(l, c);
  }

  lemma GenesisAccounts(st: State)
    requires Genesis(st)
    ensures Sound(st) && Accounted(st.l, NOTHING, map[])
  {
  }
}

/** Pipelines are exact: while a pool's snapshot waits for its bond report, the pipeline holds
    what the snapshot holds plus what was added since, so no report's subtraction truncates. */
module Pipelines {
  import opened Arithmetic
  import opened Rate
  import opened Sums
  import opened Tokens
  import opened Ledger
  import opened Series
  import opened Staking
  import opened EraMachine

  /** What was bonded in and unbonded from each pool since the last snapshots were taken. */
  datatype Added = Added(bond: map<PoolId, nat>, unbond: map<PoolId, nat>)

  const NOTHING := Added(map[], map[])

  function At(m: map<PoolId, nat>, pool: PoolId): nat { if pool in m then m[pool] else 0 }

  /** The tokens promised by the chunk the unbond has just appended to its user's list. */
  function LastChunk(s: Series, who: Account): nat
  {
    var chunks := ChunksOf(s, who);
    if chunks == [] then 0 else chunks[|chunks| - 1].value
  }

  /** The history kept beside a run, from the records executed and the chunks handed out. */
  function AddedStep(st: State, added: Added, c: Call): Added
  {
    if !Apply(st, c).1 then added
    else match c
      case NewEra(_) => NOTHING
      case Execute(id, pass, _) =>
        if pass && id in st.s.records
        then
          var record := st.s.records[id];
          added.(bond := added.bond[record.pool := At(added.bond, record.pool) + record.amount])
        else added
      case Unbond(who, pool, _, _, _) =>
        added.(unbond := added.unbond[pool := At(added.unbond, pool) + LastChunk(Apply(st, c).0.s, who)])
      case _ => added
  }

  predicate Exact(l: Ledger, added: Added, id: ShotId)
    requires id in l.shots
  {
    var snap := l.shots[id];
    && PipeOf(l, snap.pool).bond == snap.bond + At(added.bond, snap.pool)
    && PipeOf(l, snap.pool).unbond == snap.unbond + At(added.unbond, snap.pool)
  }

  /** Every snapshot waiting for its bond report is exact. */
  predicate AllExact(l: Ledger, added: Added)
  {
    forall id :: id in l.shots && l.shots[id].state == EraUpdated ==> Exact(l, added, id)
  }

  // ----- one call

  lemma NewEraExact(l: Ledger, e: u32)
    requires EraInv(l) && SetChainEra(l, e).1.None?
    ensures AllExact(SetChainEra(l, e).0, NOTHING)
  {
    hide CurrentOk, EraListsOk, NowOk, ShotsOf, OnePerPool;
    var l' := SetChainEra(l, e).0;
    ShotsDistinct(l, l.bonded, e, l.lastVoter.value);
    AllFinished(l);
    assert forall id :: id in l.shots ==> l.shots[id].state != EraUpdated;
    forall id | id in l'.shots && l'.shots[id].state == EraUpdated
      ensures Exact(l', NOTHING, id)
    {
      assert id in l'.curShots;
    }
  }

  /** A report on one snapshot touches only its own pool, and leaves that snapshot reported. */
  lemma ReportExact(l: Ledger, added: Added, l': Ledger, id: ShotId)
    requires EraInv(l) && AllExact(l, added) && id in l.shots && !Continuable(l.shots[id].state)
    requires id in l'.shots && l'.shots == l.shots[id := l'.shots[id]] && l'.shots[id].state != EraUpdated
    requires forall p :: p != l.shots[id].pool ==> PipeOf(l', p) == PipeOf(l, p)
    ensures AllExact(l', added)
  {
    hide PoolsOk, EraListsOk, NowOk, PipeOf;
    forall i | i in l'.shots && l'.shots[i].state == EraUpdated
      ensures Exact(l', added, i)
    {
      assert i in l.curShots && id in l.curShots && i != id;
      assert Exact(l, added, i);
    }
  }

  lemma BondedExact(l: Ledger, added: Added, c: Call)
    requires EraInv(l) && AllExact(l, added) && (c.Bonded? || c.Withdrawn? || c.Transferred?)
             && LedgerStep(l, c).1.None?
    ensures AllExact(LedgerStep(l, c).0, added)
  {
    hide EraInv, AllExact, Deducted, EraList, Without;
    ReportExact(l, added, LedgerStep(l, c).0, c.id);
  }

  lemma ActiveExact(l: Ledger, added: Added, c: Call)
    requires EraInv(l) && AllExact(l, added) && IsActiveReport(c) && LedgerStep(l, c).1.None?
    ensures AllExact(LedgerStep(l, c).0, added)
  {
    hide EraInv, AllExact, Deducted, MintFee, RateOf, EraList, Without, LedgerStep, PipeBefore;
    ActiveStep(l, c);
    ReportExact(l, added, LedgerStep(l, c).0, c.id);
  }

  lemma FrameExact(l: Ledger, added: Added, l': Ledger)
    requires AllExact(l, added) && l'.shots == l.shots
    requires forall id :: id in l.shots ==> PipeOf(l', l.shots[id].pool) == PipeOf(l, l.shots[id].pool)
    ensures AllExact(l', added)
  {
    hide PipeOf;
    assert forall id :: id in l.shots && l.shots[id].state == EraUpdated ==> Exact(l, added, id);
  }

  lemma InitBondExact(l: Ledger, added: Added, pool: PoolId, who: Account, amount: u128)
    requires EraInv(l) && AllExact(l, added)
    ensures AllExact(SetInitBond(l, pool, who, amount).0, added)
  {
    hide CurrentOk, EraListsOk, NowOk, OnePerPool, TokenToRtoken, RateOf;
    var (l', e) := SetInitBond(l, pool, who, amount);
    if e.None? {
      FrameExact(l, added, l');
    }
  }

  lemma AddExact(l: Ledger, added: Added, l': Ledger, added': Added, pool: PoolId, b: nat, u: nat)
    requires AllExact(l, added) && l'.shots == l.shots && (forall p :: p != pool ==> PipeOf(l', p) == PipeOf(l, p))
    requires PipeOf(l', pool).bond == PipeOf(l, pool).bond + b && PipeOf(l', pool).unbond == PipeOf(l, pool).unbond + u
    requires forall p :: At(added'.bond, p) == At(added.bond, p) + if p == pool then b else 0
    requires forall p :: At(added'.unbond, p) == At(added.unbond, p) + if p == pool then u else 0
    ensures AllExact(l', added')
  {
    hide PipeOf, At;
    assert forall id :: id in l.shots && l.shots[id].state == EraUpdated ==> Exact(l, added, id);
  }

  lemma ExecuteExact(st: State, added: Added, c: Call)
    requires AllExact(st.l, added) && c.Execute?
    ensures AllExact(Apply(st, c).0.l, AddedStep(st, added, c))
  {
    hide AllExact, TokenToRtoken;
    var st' := Apply(st, c).0;
    if Apply(st, c).1 && c.pass {
      var record := st.s.records[c.bond];
      AddExact(st.l, added, st'.l, AddedStep(st, added, c), record.pool, record.amount, 0);
    } else {
      FrameExact(st.l, added, st'.l);
    }
  }

  lemma UnbondExact(st: State, added: Added, c: Call)
    requires AllExact(st.l, added) && c.Unbond?
    ensures AllExact(Apply(st, c).0.l, AddedStep(st, added, c))
  {
    hide AllExact, RtokenToToken, Pruned, Wrap32;
    var st' := Apply(st, c).0;
    if Apply(st, c).1 {
      AddExact(st.l, added, st'.l, AddedStep(st, added, c), c.pool, 0, LastChunk(st'.s, c.who));
    } else {
      FrameExact(st.l, added, st'.l);
    }
  }

  lemma QuietExact(l: Ledger, added: Added, c: Call)
    requires AllExact(l, added) && (LedgerStep(l, c).1.Some? || (!IsReport(c) && !c.NewEra? && !c.InitBond?))
    ensures AllExact(LedgerStep(l, c).0, added)
  {
    hide AllExact, MintFee, RateOf, Deducted, TokenToRtoken, ShotsOf, Without, EraList;
    FrameExact(l, added, LedgerStep(l, c).0);
  }

  lemma StepExact(st: State, added: Added, c: Call)
    requires Sound(st) && AllExact(st.l, added)
    ensures AllExact(Apply(st, c).0.l, AddedStep(st, added, c))
  {
    hide EraInv, RecordsOk, AllExact, ReportActive, BondReport, WithdrawReport, TransferReport, SetChainEra,
         SetInitBond;
    if c.Execute? {
      ExecuteExact(st, added, c);
    } else if c.Unbond? {
      UnbondExact(st, added, c);
    } else if c.Submit? || c.SetDuration? || c.SetLimit? {
      assert Apply(st, c).0.l == st.l;
    } else if c.InitBond? {
      InitBondExact(st.l, added, c.pool, c.who, c.amount);
    } else if !Apply(st, c).1 || (!IsReport(c) && !c.NewEra?) {
      QuietExact(st.l, added, c);
    } else if c.NewEra? {
      NewEraExact(st.l, c.e);
    } else if IsActiveReport(c) {
      ActiveExact(st.l, added, c);
    } else {
      BondedExact(st.l, added, c);
    }
  }

  // ----- runs

  function AddedRun(st: State, added: Added, calls: seq<Call>): Added
    decreases |calls|
  {
    if calls == [] then added else AddedRun(Apply(st, calls[0]).0, AddedStep(st, added, calls[0]), calls[1..])
  }

  lemma {:induction false} ExactInRuns(st: State, added: Added, calls: seq<Call>)
    requires Sound(st) && AllExact(st.l, added)
    ensures AllExact(Run(st, calls).l, AddedRun(st, added, calls))
    decreases |calls|
  {
    hide Sound, AllExact, Apply, AddedStep;
    if calls != [] {
      StepKeeps(st, calls[0]);
      StepExact(st, added, calls[0]);
      ExactInRuns(Apply(st, calls[0]).0, AddedStep(st, added, calls[0]), calls[1..]);
    }
  }

  /** How much of each side a bond report settles. */
  function Settles(snap: Snapshot, action: BondAction): (nat, nat)
  {
    match action
    case BondOnly => (snap.bond, 0)
    case UnbondOnly => (0, snap.unbond)
    case BothBondUnbond => (snap.bond, snap.unbond)
    case EitherBondUnbond => (0, 0)
    case InterDeduct => (Min(snap.bond, snap.unbond), Min(snap.bond, snap.unbond))
  }

  /** A bond report takes exactly what it settles out of the pipeline; after a two-sided one the
      pipeline holds exactly what was added since the snapshot. */
  lemma BondReportExact(l: Ledger, added: Added, id: ShotId, action: BondAction)
    requires AllExact(l, added) && BondReport(l, id, action).1.None?
    ensures var pool := l.shots[id].pool; var pipe, pipe' := PipeOf(l, pool), PipeOf(BondReport(l, id, action).0, pool);
            var (b, u) := Settles(l.shots[id], action);
            && pipe'.bond + b == pipe.bond && pipe'.unbond + u == pipe.unbond && pipe'.active == pipe.active
            && (action == BothBondUnbond ==>
                  pipe'.bond == At(added.bond, pool) && pipe'.unbond == At(added.unbond, pool))
  {
    assert Exact(l, added, id);
  }

  /** The same for the combined report, whose reward is bonded on top. */
  lemma CombinedReportExact(l: Ledger, added: Added, c: Call)
    requires AllExact(l, added) && c.BondedAndActive? && LedgerStep(l, c).1.None?
    ensures var pool := l.shots[c.id].pool; var pipe, pipe' := PipeOf(l, pool), PipeOf(LedgerStep(l, c).0, pool);
            var (b, u) := Settles(l.shots[c.id], c.action);
            && pipe'.bond + b == SatAdd(pipe.bond, c.reward) && pipe'.unbond + u == pipe.unbond
            && (c.action == BothBondUnbond && pipe.bond + c.reward <= U128_MAX ==>
                  pipe'.bond == At(added.bond, pool) + c.reward && pipe'.unbond == At(added.unbond, pool))
  {
    hide ReportActive, Deducted, SatAdd;
    ActiveStep(l, c);
    assert Exact(l, added, c.id);
    var snap, pipe := l.shots[c.id], PipeOf(l, l.shots[c.id].pool);
    ActiveKeepsSides(l, c.id, PipeBefore(l, c), ActiveOf(c), c.fee);
    RewardStays(pipe.bond, c.reward);
    DeductedExact(pipe.(bond := SatAdd(pipe.bond, c.reward)), snap, c.action);
  }

  lemma RewardStays(bond: u128, reward: u128)
    ensures SatAdd(bond, reward) >= bond && (bond + reward <= U128_MAX ==> SatAdd(bond, reward) == bond + reward)
  {
  }

  lemma DeductedExact(pipe: LinkChunk, snap: Snapshot, action: BondAction)
    requires pipe.bond >= snap.bond && pipe.unbond >= snap.unbond
    ensures var (b, u) := Settles(snap, action); var pipe' := Deducted(pipe, snap, action);
            pipe'.bond + b == pipe.bond && pipe'.unbond + u == pipe.unbond && pipe'.active == pipe.active
  {
  }

  lemma ActiveKeepsSides(l: Ledger, id: ShotId, pipe: LinkChunk, active: u128, fee: u128)
    requires id in l.shots && ReportActive(l, id, pipe, active, 0, fee).1.None?
    ensures var pipe' := PipeOf(ReportActive(l, id, pipe, active, 0, fee).0, l.shots[id].pool);
            pipe'.bond == pipe.bond && pipe'.unbond == pipe.unbond
  {
    hide MintFee, RateOf, EraList, Without;
  }
}

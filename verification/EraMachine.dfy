/** The era state machine: in every run the two work lists mirror the snapshot states,
    every unfinished snapshot belongs to the current era, and every report makes progress. */
module EraMachine {
  import opened Arithmetic
  import opened Rate
  import opened Sums
  import opened Tokens
  import opened Ledger
  import opened Series
  import opened Staking

  /** States in which the active stake is still to be reported. */
  predicate Open(s: PoolBondState) { s == EraUpdated || s == BondReported }

  ghost predicate PoolsOk(l: Ledger) { NoDup(l.bonded) && forall p :: p in l.pipes <==> p in l.bonded }

  predicate IdsOk(l: Ledger)
  {
    forall id :: id in l.shots ==> id.of == l.shots[id].(state := EraUpdated) && l.shots[id].pool in l.bonded
  }

  /** `CurrentEraSnapShots` holds exactly the unfinished snapshots. */
  predicate CurrentOk(l: Ledger)
  {
    && NoDup(l.curShots)
    && (forall id :: id in l.curShots ==> id in l.shots)
    && (forall id :: id in l.shots ==> (id in l.curShots <==> !Continuable(l.shots[id].state)))
  }

  predicate ListsKnown(l: Ledger)
  {
    && (forall e :: e in l.eraShots ==> NoDup(l.eraShots[e]))
    && (forall e, id :: e in l.eraShots && id in l.eraShots[e] ==> id in l.shots && l.shots[id].era == e)
  }

  predicate ListsOpen(l: Ledger)
  {
    forall id :: id in l.shots ==> (id in EraList(l, l.shots[id].era) <==> Open(l.shots[id].state))
  }

  /** `EraSnapShots` of an era holds exactly its snapshots whose active stake is not reported. */
  predicate EraListsOk(l: Ledger) { ListsKnown(l) && ListsOpen(l) }

  /** Every unfinished snapshot belongs to the current era. */
  predicate NowOk(l: Ledger)
  {
    forall id :: id in l.shots && !Continuable(l.shots[id].state) ==> l.era == Some(l.shots[id].era)
  }

  /** A pool has at most one unfinished snapshot. */
  predicate OnePerPool(l: Ledger)
  {
    forall i, j :: i in l.curShots && j in l.curShots && i.of.pool == j.of.pool ==> i == j
  }

  ghost predicate EraInv(l: Ledger)
  {
    PoolsOk(l) && IdsOk(l) && CurrentOk(l) && EraListsOk(l) && NowOk(l) && OnePerPool(l)
  }

  // ----- calls that leave the snapshots alone

  predicate SameShots(l: Ledger, l': Ledger)
  {
    l'.shots == l.shots && l'.eraShots == l.eraShots && l'.curShots == l.curShots && l'.era == l.era
  }

  lemma FrameKeeps(l: Ledger, l': Ledger)
    requires EraInv(l) && SameShots(l, l') && PoolsOk(l') && (forall p :: p in l.bonded ==> p in l'.bonded)
    ensures EraInv(l')
  {
  }

  // ----- a new era

  lemma ShotsDistinct(l: Ledger, bonded: seq<PoolId>, e: u32, voter: Account)
    requires NoDup(bonded)
    ensures NoDup(ShotsOf(l, bonded, e, voter))
    ensures forall id :: id in ShotsOf(l, bonded, e, voter) ==>
              && id == ShotOf(l, id.of.pool, e, voter) && id.of.pool in bonded && id.of.era == e
                 && id.of.state == EraUpdated
    ensures var ids := ShotsOf(l, bonded, e, voter);
            forall i, j :: i in ids && j in ids && i.of.pool == j.of.pool ==> i == j
  {
    var ids := ShotsOf(l, bonded, e, voter);
    forall i, j | 0 <= i < j < |ids|
      ensures ids[i] != ids[j]
    {
      assert ids[i].of.pool == bonded[i] && ids[j].of.pool == bonded[j];
    }
  }

  lemma ListedIsCurrent(l: Ledger, e: u32, id: ShotId)
    requires CurrentOk(l) && EraListsOk(l) && id in EraList(l, e)
    ensures id in l.curShots
  {
    assert id in l.shots && l.shots[id].era == e;
  }

  /** Before a new era starts every snapshot is finished, so no era list has anything left. */
  lemma AllFinished(l: Ledger)
    requires CurrentOk(l) && EraListsOk(l) && l.curShots == []
    ensures forall id :: id in l.shots ==> Continuable(l.shots[id].state)
    ensures forall e: u32 :: EraList(l, e) == []
  {
    forall e: u32
      ensures EraList(l, e) == []
    {
      if EraList(l, e) != [] {
        ListedIsCurrent(l, e, EraList(l, e)[0]);
      }
    }
  }

  /** What `set_chain_era` stores. */
  predicate EraStarted(l: Ledger, l': Ledger, ids: seq<ShotId>, e: u32)
  {
    && l'.shots == l.shots + (map id | id in ids :: id.of) && l'.eraShots == l.eraShots[e := ids]
    && l'.curShots == ids && l'.era == Some(e) && l'.bonded == l.bonded && l'.pipes == l.pipes
  }

  /** The snapshots of a new era, as far as the lists are concerned. */
  predicate FreshIds(ids: seq<ShotId>, e: u32)
  {
    NoDup(ids) && forall id :: id in ids ==> id.of.era == e && id.of.state == EraUpdated
  }

  lemma NewListsKnown(l: Ledger, l': Ledger, ids: seq<ShotId>, e: u32)
    requires ListsKnown(l) && EraStarted(l, l', ids, e) && FreshIds(ids, e) && (forall f: u32 :: EraList(l, f) == [])
    ensures ListsKnown(l')
  {
    forall f: u32 | f in l.eraShots
      ensures l.eraShots[f] == []
    {
      assert EraList(l, f) == [];
    }
  }

  lemma NewListsOpen(l: Ledger, l': Ledger, ids: seq<ShotId>, e: u32)
    requires EraStarted(l, l', ids, e) && FreshIds(ids, e) && (forall f: u32 :: EraList(l, f) == [])
    requires forall id :: id in l.shots ==> Continuable(l.shots[id].state)
    ensures ListsOpen(l')
  {
    forall id | id in l'.shots
      ensures id in EraList(l', l'.shots[id].era) <==> Open(l'.shots[id].state)
    {
      var f := l'.shots[id].era;
      assert EraList(l', f) == if f == e then ids else EraList(l, f);
    }
  }

  lemma NewCurrentOk(l: Ledger, l': Ledger, ids: seq<ShotId>, e: u32)
    requires EraStarted(l, l', ids, e) && FreshIds(ids, e)
    requires forall id :: id in l.shots ==> Continuable(l.shots[id].state)
    ensures CurrentOk(l') && NowOk(l')
  {
  }

  lemma NewIdsOk(l: Ledger, l': Ledger, ids: seq<ShotId>, e: u32)
    requires IdsOk(l) && EraStarted(l, l', ids, e) && FreshIds(ids, e)
             && (forall id :: id in ids ==> id.of.pool in l.bonded)
    ensures IdsOk(l')
  {
  }

  lemma NewEraKeeps(l: Ledger, e: u32)
    requires EraInv(l)
    ensures EraInv(SetChainEra(l, e).0)
    ensures SetChainEra(l, e).1.None? ==> forall id :: id in l.shots ==> Continuable(l.shots[id].state)
  {
    hide CurrentOk, ListsKnown, ListsOpen, IdsOk, NowOk, ShotsOf;
    var (l', error) := SetChainEra(l, e);
    if error.None? {
      ShotsDistinct(l, l.bonded, e, l.lastVoter.value);
      AllFinished(l);
      NewListsKnown(l, l', l'.curShots, e);
      NewListsOpen(l, l', l'.curShots, e);
      NewCurrentOk(l, l', l'.curShots, e);
      NewIdsOk(l, l', l'.curShots, e);
    }
  }

  // ----- a report moves one snapshot on

  lemma ReportCurrentOk(l: Ledger, l': Ledger, id: ShotId, s: PoolBondState)
    requires CurrentOk(l) && id in l.shots && id in l.curShots
    requires l'.shots == l.shots[id := l.shots[id].(state := s)]
    requires l'.curShots == if Continuable(s) then Without(l.curShots, id) else l.curShots
    ensures CurrentOk(l')
  {
    WithoutNoDup(l.curShots, id);
  }

  lemma ReportListsStay(l: Ledger, l': Ledger, id: ShotId, s: PoolBondState)
    requires EraListsOk(l) && id in l.shots && (Open(s) <==> Open(l.shots[id].state))
    requires l'.shots == l.shots[id := l.shots[id].(state := s)] && l'.eraShots == l.eraShots
    ensures EraListsOk(l')
  {
    assert forall f: u32 :: EraList(l', f) == EraList(l, f);
  }

  lemma ReportLeavesList(l: Ledger, l': Ledger, id: ShotId, s: PoolBondState)
    requires EraListsOk(l) && id in l.shots && Open(l.shots[id].state) && !Open(s)
    requires l'.shots == l.shots[id := l.shots[id].(state := s)]
    requires l'.eraShots == l.eraShots[l.shots[id].era := Without(EraList(l, l.shots[id].era), id)]
    ensures EraListsOk(l')
  {
    var e := l.shots[id].era;
    WithoutNoDup(EraList(l, e), id);
    assert ListsKnown(l') by {
      forall f, i | f in l'.eraShots && i in l'.eraShots[f]
        ensures i in l'.shots && l'.shots[i].era == f
      {
        assert i in EraList(l, f);
      }
    }
    forall i | i in l'.shots
      ensures i in EraList(l', l'.shots[i].era) <==> Open(l'.shots[i].state)
    {
      assert i in EraList(l, l.shots[i].era) <==> Open(l.shots[i].state);
    }
  }

  lemma ReportEraListsOk(l: Ledger, l': Ledger, id: ShotId, s: PoolBondState)
    requires EraListsOk(l) && id in l.shots && (Open(s) ==> Open(l.shots[id].state))
    requires l'.shots == l.shots[id := l.shots[id].(state := s)]
    requires l'.eraShots == if Open(l.shots[id].state) && !Open(s)
                            then l.eraShots[l.shots[id].era := Without(EraList(l, l.shots[id].era), id)] else l.eraShots
    ensures EraListsOk(l')
  {
    hide EraListsOk;
    if Open(l.shots[id].state) && !Open(s) {
      ReportLeavesList(l, l', id, s);
    } else {
      ReportListsStay(l, l', id, s);
    }
  }

  /** A report that moves an unfinished snapshot forward and takes it off the lists it leaves. */
  lemma ReportKeeps(l: Ledger, l': Ledger, id: ShotId, s: PoolBondState)
    requires EraInv(l) && id in l.shots && id in l.curShots && !Continuable(l.shots[id].state)
    requires Open(s) ==> Open(l.shots[id].state)
    requires l'.shots == l.shots[id := l.shots[id].(state := s)]
    requires l'.curShots == if Continuable(s) then Without(l.curShots, id) else l.curShots
    requires l'.eraShots == if Open(l.shots[id].state) && !Open(s)
                            then l.eraShots[l.shots[id].era := Without(EraList(l, l.shots[id].era), id)] else l.eraShots
    requires l'.era == l.era && l'.bonded == l.bonded && PoolsOk(l')
    ensures EraInv(l')
  {
    hide CurrentOk, EraListsOk;
    ReportCurrentOk(l, l', id, s);
    ReportEraListsOk(l, l', id, s);
    assert OnePerPool(l') by {
      CurrentShrinks(l, l', id);
    }
  }

  lemma CurrentShrinks(l: Ledger, l': Ledger, id: ShotId)
    requires CurrentOk(l) && id in l.curShots && (l'.curShots == l.curShots || l'.curShots == Without(l.curShots, id))
    ensures forall i :: i in l'.curShots ==> i in l.curShots
  {
    WithoutNoDup(l.curShots, id);
  }

  lemma UnfinishedIsCurrent(l: Ledger, id: ShotId)
    requires EraInv(l) && id in l.shots && !Continuable(l.shots[id].state)
    ensures id in l.curShots && l.shots[id].pool in l.pipes && l.era == Some(l.shots[id].era)
    ensures Open(l.shots[id].state) <==> id in EraList(l, l.shots[id].era)
  {
  }

  lemma BondReportKeeps(l: Ledger, id: ShotId, action: BondAction)
    requires EraInv(l)
    ensures EraInv(BondReport(l, id, action).0)
  {
    hide EraInv, Deducted;
    var (l', e) := BondReport(l, id, action);
    if e.None? {
      UnfinishedIsCurrent(l, id);
      PoolsStay(l, l');
      ReportKeeps(l, l', id, BondReported);
    }
  }

  lemma PoolsStay(l: Ledger, l': Ledger)
    requires EraInv(l) && l'.bonded == l.bonded && l'.pipes.Keys == l.pipes.Keys
    ensures PoolsOk(l')
  {
    assert forall p :: p in l'.pipes <==> p in l'.pipes.Keys;
    assert forall p :: p in l.pipes <==> p in l.pipes.Keys;
  }

  lemma ActiveKeeps(l: Ledger, id: ShotId, pipe: LinkChunk, active: u128, extra: u128, fee: u128)
    requires EraInv(l) && id in l.shots && Open(l.shots[id].state)
    ensures EraInv(ReportActive(l, id, pipe, active, extra, fee).0)
  {
    hide EraInv, MintFee, RateOf;
    var (l', e) := ReportActive(l, id, pipe, active, extra, fee);
    if e.None? {
      UnfinishedIsCurrent(l, id);
      PoolsStay(l, l');
      ReportKeeps(l, l', id, l'.shots[id].state);
    }
  }

  lemma WithdrawalKeeps(l: Ledger, id: ShotId)
    requires EraInv(l)
    ensures EraInv(WithdrawReport(l, id).0) && EraInv(TransferReport(l, id).0)
  {
    hide EraInv;
    var (w, e) := WithdrawReport(l, id);
    if e.None? {
      UnfinishedIsCurrent(l, id);
      PoolsStay(l, w);
      ReportKeeps(l, w, id, WithdrawReported);
    }
    var (t, e') := TransferReport(l, id);
    if e'.None? {
      PoolsStay(l, t);
      ReportKeeps(l, t, id, TransferReported);
    }
  }

  lemma InitBondKeeps(l: Ledger, pool: PoolId, who: Account, amount: u128)
    requires EraInv(l)
    ensures EraInv(SetInitBond(l, pool, who, amount).0)
  {
    var (l', e) := SetInitBond(l, pool, who, amount);
    if e.None? {
      FrameKeeps(l, l');
    }
  }

  lemma LedgerStepKeeps(l: Ledger, c: Call)
    requires EraInv(l)
    ensures EraInv(LedgerStep(l, c).0)
  {
    hide EraInv, ReportActive, BondReport, SetChainEra, SetInitBond, WithdrawReport, TransferReport;
    match c {
      case InitBond(pool, who, amount) => InitBondKeeps(l, pool, who, amount);
      case NewEra(e) => NewEraKeeps(l, e);
      case Bonded(id, action) => BondReportKeeps(l, id, action);
      case BondedAndActive(id, action, active, reward, fee) =>
        if id in l.shots && l.shots[id].state == EraUpdated {
          var pipe := PipeOf(l, l.shots[id].pool);
          ActiveKeeps(l, id, Deducted(pipe.(bond := SatAdd(pipe.bond, reward)), l.shots[id], action),
                      SatAdd(active, reward), 0, fee);
        }
      case Active(id, active, fee) =>
        if id in l.shots && l.shots[id].state == BondReported {
          ActiveKeeps(l, id, PipeOf(l, l.shots[id].pool), active, 0, fee);
        }
      case NewActive(id, staked, unstaked, fee) =>
        if id in l.shots && l.shots[id].state == BondReported {
          ActiveKeeps(l, id, PipeOf(l, l.shots[id].pool), SatAdd(staked, unstaked), unstaked, fee);
        }
      case Withdrawn(id) => WithdrawalKeeps(l, id);
      case Transferred(id) => WithdrawalKeeps(l, id);
      case _ => SimpleKeeps(l, LedgerStep(l, c).0);
    }
  }

  lemma SimpleKeeps(l: Ledger, l': Ledger)
    requires EraInv(l) && SameShots(l, l') && l'.pipes == l.pipes && l'.bonded == l.bonded
    ensures EraInv(l')
  {
    FrameKeeps(l, l');
  }

  // ----- bonds and unbonds

  /** A bond record names a bonded pool, and the state of its transaction is known. */
  predicate RecordsOk(st: State)
  {
    forall id :: id in st.s.records ==>
      id.of == st.s.records[id] && id.of.pool in st.l.bonded && id.of.tx in st.s.states
  }

  ghost predicate Sound(st: State) { EraInv(st.l) && RecordsOk(st) }

  lemma PipeWrite(l: Ledger, l': Ledger, pool: PoolId)
    requires EraInv(l) && pool in l.bonded && SameShots(l, l') && l'.bonded == l.bonded
             && l'.pipes == l.pipes[pool := PipeOf(l', pool)]
    ensures EraInv(l')
  {
    FrameKeeps(l, l');
  }

  lemma ExecuteKeeps(st: State, id: BondId, pass: bool, env: Env)
    requires Sound(st)
    ensures Sound(ExecuteBond(st, id, pass, env).0)
  {
    hide EraInv, TokenToRtoken;
    var (st', e) := ExecuteBond(st, id, pass, env);
    if id in st.s.records {
      if e.None? && pass {
        PipeWrite(st.l, st'.l, st.s.records[id].pool);
      } else {
        SimpleKeeps(st.l, st'.l);
      }
    }
  }

  lemma UnbondKeeps(st: State, who: Account, pool: PoolId, value: u128, asked: u128, env: UnbondEnv)
    requires Sound(st)
    ensures Sound(LiquidityUnbond(st, who, pool, value, asked, env).0)
  {
    hide EraInv, Pruned, RtokenToToken, Wrap32;
    var (st', e) := LiquidityUnbond(st, who, pool, value, asked, env);
    if e.None? {
      PipeWrite(st.l, st'.l, pool);
    } else {
      SimpleKeeps(st.l, st'.l);
    }
  }

  lemma BondedGrows(l: Ledger, c: Call)
    ensures forall p :: p in l.bonded ==> p in LedgerStep(l, c).0.bonded
  {
    hide MintFee, Deducted, RateOf, TokenToRtoken;
  }

  lemma StepKeeps(st: State, c: Call)
    requires Sound(st)
    ensures Sound(Apply(st, c).0)
  {
    hide EraInv, LedgerStep;
    match c {
      case Submit(_, _, _) =>
      case Execute(bond, pass, env) => ExecuteKeeps(st, bond, pass, env);
      case Unbond(who, pool, value, asked, env) => UnbondKeeps(st, who, pool, value, asked, env);
      case SetDuration(_) =>
      case SetLimit(_) =>
      case _ =>
        LedgerStepKeeps(st.l, c);
        BondedGrows(st.l, c);
    }
  }

  /** The whole state machine, in every state of every run. */
  lemma {:induction false} SoundInRuns(st: State, calls: seq<Call>)
    requires Sound(st)
    ensures Sound(Run(st, calls))
    decreases |calls|
  {
    hide Sound, Apply;
    if calls != [] {
      StepKeeps(st, calls[0]);
      SoundInRuns(Apply(st, calls[0]).0, calls[1..]);
    }
  }
}

/** Solvency: the rTokens in issue, valued at the rate, never exceed the tokens behind them plus
    a slack, in every run and except part-way through an era's active reports. The slack grows by
    what is unbonded late and by what is minted to a refused destination, it takes up what an era
    set again or a report that finds nothing leaves open, and each era's reports clear it. */
module Solvency {
  import opened Arithmetic
  import opened Rate
  import opened Sums
  import opened Tokens
  import opened Ledger
  import opened Series
  import opened Staking
  import opened EraMachine
  import SingleMint

  function Actives(l: Ledger): map<PoolId, u128> { map p | p in l.pipes :: l.pipes[p].active }

  /** Pools whose active stake is still to be reported this era. */
  function Waiting(l: Ledger): set<PoolId> { set id | id in EraList(l, EraOf(l)) :: id.of.pool }

  function Settled(l: Ledger): map<PoolId, u128> { map p | p in l.pipes && p !in Waiting(l) :: l.pipes[p].active }

  ghost function TotalActive(l: Ledger): nat { Sum(Actives(l)) }

  ghost function TotalSettled(l: Ledger): nat { Sum(Settled(l)) }

  /** Some of the current era's active reports are in, and some are not. */
  predicate PartWay(l: Ledger) { EraOf(l) in l.expected && EraList(l, EraOf(l)) != [] }

  /** The rTokens in issue are worth no more than the active stake plus `slack`. */
  ghost predicate Covered(l: Ledger, slack: nat)
  {
    l.rate.Some? ==> l.rate.value * l.bank.issuance <= RATEBASE * (TotalActive(l) + slack)
  }

  ghost predicate Solvent(l: Ledger) { Covered(l, 0) }

  /** Eras with reports are not ahead of the chain. */
  predicate Past(l: Ledger) { forall e :: e in l.expected ==> l.era.Some? && e <= l.era.value }

  ghost predicate Backed(l: Ledger, slack: nat)
  {
    && Past(l)
    && (l.rate.None? ==> l.bank.issuance == 0 && l.bonded == [])
    && (if PartWay(l) then ExpectedAt(l, EraOf(l)) <= TotalSettled(l) + slack else Covered(l, slack))
  }

  // ----- arithmetic

  lemma MintStays(rate: nat, issuance: nat, issuance': nat, minted: nat, total: nat, v: nat)
    requires rate * issuance <= RATEBASE * total && rate * minted <= RATEBASE * v && issuance' <= issuance + minted
    ensures rate * issuance' <= RATEBASE * (total + v)
  {
    MulMono(issuance', issuance + minted, rate);
    assert rate * (issuance + minted) == rate * issuance + rate * minted;
  }

  lemma BurnStays(rate: nat, issuance: nat, burned: nat, total: nat, v: nat)
    requires rate * issuance <= RATEBASE * total && RATEBASE * v <= rate * burned
    ensures v <= total ==> rate * SatSub(issuance, burned) <= RATEBASE * (total - v)
  {
    if burned <= issuance {
      assert rate * (issuance - burned) == rate * issuance - rate * burned;
    }
  }

  // ----- writing one pipeline

  lemma ActivesInsert(l: Ledger, l': Ledger, pool: PoolId, chunk: LinkChunk)
    requires l'.pipes == l.pipes[pool := chunk]
    ensures TotalActive(l') == TotalActive(l) + chunk.active - PipeOf(l, pool).active
  {
    SumInsert(Actives(l), pool, chunk.active);
    assert Actives(l') == Actives(l)[pool := chunk.active];
  }

  /** With the waiting pools unchanged. */
  lemma SettledInsert(l: Ledger, l': Ledger, pool: PoolId, chunk: LinkChunk)
    requires l'.pipes == l.pipes[pool := chunk] && Waiting(l') == Waiting(l)
    ensures TotalSettled(l') == if pool in Waiting(l) then TotalSettled(l)
            else TotalSettled(l) + chunk.active - PipeOf(l, pool).active
  {
    if pool in Waiting(l) {
      assert Settled(l') == Settled(l);
    } else {
      SumInsert(Settled(l), pool, chunk.active);
      assert Settled(l') == Settled(l)[pool := chunk.active];
    }
  }

  /** What a call that leaves the reports alone does to the two totals. */
  lemma OneWrite(l: Ledger, l': Ledger, pool: PoolId, chunk: LinkChunk)
    requires l'.pipes == l.pipes[pool := chunk] && l'.eraShots == l.eraShots && l'.era == l.era
             && l'.expected == l.expected
    ensures TotalActive(l') == TotalActive(l) + chunk.active - PipeOf(l, pool).active
    ensures TotalSettled(l') == if pool in Waiting(l) then TotalSettled(l)
            else TotalSettled(l) + chunk.active - PipeOf(l, pool).active
    ensures PartWay(l') == PartWay(l) && ExpectedAt(l', EraOf(l')) == ExpectedAt(l, EraOf(l)) && (Past(l) ==> Past(l'))
  {
    ActivesInsert(l, l', pool, chunk);
    assert EraList(l', EraOf(l')) == EraList(l, EraOf(l));
    SettledInsert(l, l', pool, chunk);
  }

  lemma NoWrite(l: Ledger, l': Ledger)
    requires l'.pipes == l.pipes && l'.eraShots == l.eraShots && l'.era == l.era && l'.expected == l.expected
    ensures TotalActive(l') == TotalActive(l) && TotalSettled(l') == TotalSettled(l)
    ensures PartWay(l') == PartWay(l) && ExpectedAt(l', EraOf(l')) == ExpectedAt(l, EraOf(l)) && (Past(l) ==> Past(l'))
  {
    assert Actives(l') == Actives(l);
    assert EraList(l', EraOf(l')) == EraList(l, EraOf(l));
    assert Settled(l') == Settled(l);
  }

  // ----- bonds and unbonds

  lemma InitBondBacked(l: Ledger, slack: nat, pool: PoolId, who: Account, amount: u128)
    requires EraInv(l) && Backed(l, slack)
    ensures Backed(SetInitBond(l, pool, who, amount).0, slack)
  {
    hide EraInv, TotalActive, TotalSettled, PartWay, Past, TokenToRtoken, RateOf;
    var (l', e) := SetInitBond(l, pool, who, amount);
    if e.None? {
      OneWrite(l, l', pool, LinkChunk(0, 0, amount));
      NewPoolEmpty(l, pool);
      FirstRate(amount);
      var rate := if l.rate.None? then RATEBASE else l.rate.value;
      MintCovered(rate, amount);
      if !PartWay(l) {
        MintStays(rate, l.bank.issuance, l'.bank.issuance, TokenToRtoken(l.rate, amount), TotalActive(l) + slack,
                  amount);
      }
    }
  }

  lemma FirstRate(amount: u128)
    ensures TokenToRtoken(None, amount) == amount && RateOf(0, 0) == RATEBASE
            && TokenToRtoken(Some(RATEBASE), amount) == amount
  {
    FloorIsDivision(amount * RATEBASE, RATEBASE);
  }

  lemma NewPoolEmpty(l: Ledger, pool: PoolId)
    requires EraInv(l) && pool !in l.bonded
    ensures PipeOf(l, pool) == LinkChunk(0, 0, 0)
  {
  }

  /** Tokens of a record minted for although its destination is refused: the pipeline is not told. While an era's
      reports are under way this needs no slack, since the rate to come counts the rTokens then in issue. */
  function RefusedBy(st: State, c: Call): nat
  {
    if SingleMint.Refused(st, c) && !PartWay(st.l) then st.s.records[c.bond].amount else 0
  }

  lemma ExecuteBacked(st: State, slack: nat, c: Call)
    requires Sound(st) && Backed(st.l, slack) && c.Execute?
    ensures Backed(Apply(st, c).0.l, slack + RefusedBy(st, c))
  {
    hide EraInv, TotalActive, TotalSettled, PartWay, Past, TokenToRtoken;
    var l, l' := st.l, Apply(st, c).0.l;
    if SingleMint.Mints(st, c) {
      var record := st.s.records[c.bond];
      var pipe := PipeOf(l, record.pool);
      if SingleMint.Refused(st, c) {
        NoWrite(l, l');
      } else {
        OneWrite(l, l', record.pool, pipe.(bond := pipe.bond + record.amount, active := pipe.active + record.amount));
      }
      MintCovered(l.rate.value, record.amount);
      if !PartWay(l) {
        MintStays(l.rate.value, l.bank.issuance, l'.bank.issuance, TokenToRtoken(l.rate, record.amount),
                  TotalActive(l) + slack, record.amount);
      }
    } else {
      NoWrite(l, l');
    }
  }

  /** Tokens taken from a settled pool's stake while the era's reports are under way. */
  function LateBy(st: State, c: Call): nat
  {
    if c.Unbond? && PartWay(st.l) && c.pool !in Waiting(st.l)
    then SatSub(PipeOf(st.l, c.pool).active, PipeOf(Apply(st, c).0.l, c.pool).active) else 0
  }

  lemma UnbondBacked(st: State, slack: nat, c: Call)
    requires Sound(st) && Backed(st.l, slack) && c.Unbond?
    ensures Backed(Apply(st, c).0.l, slack + LateBy(st, c))
  {
    hide EraInv, RecordsOk, TotalActive, TotalSettled, PartWay, Past, RtokenToToken, Pruned, Wrap32, Waiting;
    var (st', e) := LiquidityUnbond(st, c.who, c.pool, c.value, c.asked, c.unbondEnv);
    var l, l' := st.l, st'.l;
    if e.None? {
      OneWrite(l, l', c.pool, PipeOf(l', c.pool));
      if !PartWay(l) {
        ActiveInTotal(l, c.pool);
        var left := c.value - Cut(c.asked, c.value);
        RedeemCovered(l.rate.value, left);
        BurnStays(l.rate.value, l.bank.issuance, left, TotalActive(l) + slack, RtokenToToken(l.rate, left));
      }
    } else {
      FailedUnbond(st, c);
      NoWrite(l, l');
    }
  }

  lemma ActiveInTotal(l: Ledger, pool: PoolId)
    ensures PipeOf(l, pool).active <= TotalActive(l)
  {
    if pool in l.pipes {
      SumMember(Actives(l), pool);
    }
  }

  /** Calls that change neither the reports, the pipelines nor the issuance. */
  predicate Idle(l: Ledger, l': Ledger)
  {
    && l'.pipes == l.pipes && l'.eraShots == l.eraShots && l'.era == l.era && l'.expected == l.expected
    && l'.bank.issuance == l.bank.issuance && l'.bonded == l.bonded && l'.rate == l.rate
  }

  lemma FailedTake(st: State, who: Account, pool: PoolId, value: u128, left: u128, payable: bool)
    requires left <= value && st.l.era.Some? && st.s.duration.Some? && st.l.receiver.Some?
    requires TakeUnbond(st, who, pool, value, left, payable).1.Some?
    ensures Idle(st.l, TakeUnbond(st, who, pool, value, left, payable).0.l)
  {
    hide RtokenToToken, Pruned, Wrap32, Transfer, Burn, Free;
    TransferIssuance(st.l.bank, who, st.l.receiver.value, value - left);
  }

  lemma FailedUnbond(st: State, c: Call)
    requires c.Unbond? && !Apply(st, c).1
    ensures Idle(st.l, Apply(st, c).0.l)
  {
    hide TakeUnbond, Free;
    if st.l.era.Some? && st.s.duration.Some? && st.l.receiver.Some? {
      var left := c.value - Cut(c.asked, c.value);
      if TakeUnbond(st, c.who, c.pool, c.value, left, c.unbondEnv.payable).1.Some? {
        FailedTake(st, c.who, c.pool, c.value, left, c.unbondEnv.payable);
      }
    }
  }

  // ----- active reports

  /** A report takes its pool, and no other, off the waiting ones. */
  lemma ReportSettles(l: Ledger, l': Ledger, id: ShotId)
    requires EraInv(l) && id in l.shots && Open(l.shots[id].state)
    requires l'.era == l.era && l'.eraShots == l.eraShots[l.shots[id].era := Without(EraList(l, l.shots[id].era), id)]
    ensures id.of.pool == l.shots[id].pool && id.of.pool in Waiting(l) && Waiting(l') == Waiting(l) - {l.shots[id].pool}
    ensures EraOf(l) == l.shots[id].era
  {
    hide CurrentOk, EraListsOk, PoolsOk;
    UnfinishedIsCurrent(l, id);
    var e := l.shots[id].era;
    ListDistinct(l, e);
    WithoutNoDup(EraList(l, e), id);
    forall i | i in EraList(l, e) && i.of.pool == id.of.pool
      ensures i == id
    {
      ListedIsCurrent(l, e, i);
    }
  }

  lemma ListDistinct(l: Ledger, e: u32)
    requires EraListsOk(l)
    ensures NoDup(EraList(l, e))
  {
  }

  lemma SettledGrows(l: Ledger, l': Ledger, pool: PoolId, chunk: LinkChunk)
    requires l'.pipes == l.pipes[pool := chunk] && pool in Waiting(l) && Waiting(l') == Waiting(l) - {pool}
    ensures TotalSettled(l') == TotalSettled(l) + chunk.active
  {
    SumInsert(Settled(l), pool, chunk.active);
    assert Settled(l') == Settled(l)[pool := chunk.active];
  }

  lemma AllSettled(l: Ledger)
    requires EraList(l, EraOf(l)) == []
    ensures TotalSettled(l) == TotalActive(l)
  {
    assert Settled(l) == Actives(l);
  }

  /** Whether the report in `l'` was the era's last. */
  predicate Closed(l: Ledger) { EraList(l, EraOf(l)) == [] }

  /** After the report everything reported so far is still in the settled pools; if it was the
      last one, the new rate was computed from that. */
  lemma ReportAccounts(l: Ledger, slack: nat, id: ShotId, pipe: LinkChunk, active: u128, extra: u128, fee: u128)
    requires EraInv(l) && Backed(l, slack) && id in l.shots && Open(l.shots[id].state)
    requires ReportActive(l, id, pipe, active, extra, fee).1.None?
    ensures var l', carried := ReportActive(l, id, pipe, active, extra, fee).0, if PartWay(l) then slack else 0;
            && Past(l') && EraOf(l') == EraOf(l) && EraOf(l) in l'.expected && l'.rate.Some? && l'.bonded == l.bonded
            && ExpectedAt(l', EraOf(l')) <= TotalSettled(l') + carried
            && (Closed(l') ==>
                  && l'.rate == Some(RateOf(ExpectedAt(l', EraOf(l')), l'.bank.issuance))
                  && TotalSettled(l') == TotalActive(l'))
  {
    hide EraInv, TotalActive, TotalSettled, MintFee, RateOf, Waiting, Covered;
    var l' := ReportActive(l, id, pipe, active, extra, fee).0;
    UnfinishedIsCurrent(l, id);
    ReportSettles(l, l', id);
    SettledGrows(l, l', l.shots[id].pool, l'.pipes[l.shots[id].pool]);
    if Closed(l') {
      AllSettled(l');
    }
  }

  /** The report c is the era's last: its snapshot is the only one left. */
  predicate Closes(l: Ledger, c: Call)
  {
    IsActiveReport(c) && c.id in l.shots && EraList(l, l.shots[c.id].era) == [c.id]
  }

  /** The total expected stake once c is counted. */
  function TotalWith(l: Ledger, c: Call): u128
    requires IsActiveReport(c) && c.id in l.shots
  {
    var snap := l.shots[c.id];
    SatAdd(ExpectedAt(l, snap.era), ExpectedActive(PipeOf(l, snap.pool).active, ActiveOf(c), snap.active))
  }

  /** What the last report needs to find: some stake to divide, or enough in the other pools to cover
      every rToken one to one. */
  ghost predicate SomethingLeft(l: Ledger, slack: nat, c: Call)
    requires IsActiveReport(c) && c.id in l.shots
  {
    TotalWith(l, c) > 0 || l.bank.issuance + PipeOf(l, l.shots[c.id].pool).active <= TotalActive(l) + slack
  }

  lemma ClosesIs(l: Ledger, c: Call)
    requires EraInv(l) && IsActiveReport(c) && LedgerStep(l, c).1.None?
    ensures c.id in l.shots && (Closed(LedgerStep(l, c).0) <==> Closes(l, c))
  {
    hide EraInv, MintFee, RateOf, LedgerStep;
    ActiveStep(l, c);
    UnfinishedIsCurrent(l, c.id);
  }

  /** A report that leaves nothing to divide has minted no fee and emptied its pool. */
  lemma NothingLeft(l: Ledger, c: Call)
    requires IsActiveReport(c) && LedgerStep(l, c).1.None? && c.id in l.shots && TotalWith(l, c) == 0
    ensures var l' := LedgerStep(l, c).0;
            l'.bank.issuance == l.bank.issuance
              && TotalActive(l') + PipeOf(l, l.shots[c.id].pool).active == TotalActive(l)
  {
    hide RateOf, LedgerStep, Without, EraList, TotalActive;
    ActiveStep(l, c);
    var l', pool := LedgerStep(l, c).0, l.shots[c.id].pool;
    ActivesInsert(l, l', pool, l'.pipes[pool]);
  }

  lemma ReportTotal(l: Ledger, c: Call)
    requires IsActiveReport(c) && LedgerStep(l, c).1.None?
    ensures c.id in l.shots && ExpectedAt(LedgerStep(l, c).0, l.shots[c.id].era) == TotalWith(l, c)
  {
    hide RateOf, LedgerStep, Without, EraList, MintFee;
    ActiveStep(l, c);
  }

  /** The slack an active report starts from: each era's first one clears what was open before it. */
  function Carried(l: Ledger, slack: nat): nat { if PartWay(l) then slack else 0 }

  /** The last report of an era, slashed or not, leaves the symbol covered up to a slack if and only if,
      with that slack, it finds something left. */
  lemma ClosingReport(l: Ledger, slack: nat, c: Call, kept: nat)
    requires EraInv(l) && Backed(l, slack) && LedgerStep(l, c).1.None? && Closes(l, c) && kept >= Carried(l, slack)
    ensures Covered(LedgerStep(l, c).0, kept) <==> SomethingLeft(l, kept, c)
  {
    hide EraInv, TotalActive, TotalSettled, ReportActive, RateOf, Backed, LedgerStep, Closed;
    ActiveStep(l, c);
    ClosesIs(l, c);
    var l' := LedgerStep(l, c).0;
    ReportAccounts(l, slack, c.id, PipeBefore(l, c), ActiveOf(c), ExtraOf(c), c.fee);
    UnfinishedIsCurrent(l, c.id);
    ReportTotal(l, c);
    NewRateCovers(TotalWith(l, c), l'.bank.issuance, TotalActive(l') + kept);
    if TotalWith(l, c) == 0 {
      NothingLeft(l, c);
    }
  }

  lemma NewRateCovers(total: u128, issuance: u128, behind: nat)
    requires total <= behind
    ensures RateOf(total, issuance) * issuance <= RATEBASE * behind <==> total > 0 || issuance <= behind
  {
    if total > 0 || issuance == 0 {
      RateCovered(total, issuance);
      MulMono(total, behind, RATEBASE);
    } else {
      assert RateOf(total, issuance) == RATEBASE;
    }
  }

  lemma ActiveBacked(l: Ledger, slack: nat, c: Call, kept: nat)
    requires EraInv(l) && Backed(l, slack) && IsActiveReport(c) && LedgerStep(l, c).1.None? && kept >= Carried(l, slack)
    requires Closes(l, c) ==> SomethingLeft(l, kept, c)
    ensures Backed(LedgerStep(l, c).0, kept)
  {
    hide EraInv, TotalActive, TotalSettled, ReportActive, RateOf, Past, LedgerStep, SomethingLeft, Closes;
    ActiveStep(l, c);
    ReportAccounts(l, slack, c.id, PipeBefore(l, c), ActiveOf(c), ExtraOf(c), c.fee);
    ClosesIs(l, c);
    if Closes(l, c) {
      ClosingReport(l, slack, c, kept);
    }
  }

  // ----- every call

  /** Eras 0 and u32::MAX may be set twice; all others are new when they are set. */
  lemma EraIsNew(l: Ledger, e: u32)
    requires Past(l) && SetChainEra(l, e).1.None? && 0 < e < U32_MAX
    ensures e !in l.expected
  {
  }

  /** The new era has no reports from an earlier time it was set, or no more than the slack. */
  predicate FreshEra(l: Ledger, slack: nat, e: u32) { e in l.expected && l.bonded != [] ==> ExpectedAt(l, e) <= slack }

  /** Right after a new era every bonded pool waits for its report. */
  lemma NewEraWaits(l: Ledger, e: u32)
    requires EraInv(l) && SetChainEra(l, e).1.None?
    ensures forall p :: p in l.pipes ==> p in Waiting(SetChainEra(l, e).0)
    ensures EraList(SetChainEra(l, e).0, e) == [] <==> l.bonded == []
  {
    hide CurrentOk, EraListsOk, IdsOk, NowOk, OnePerPool;
    var l' := SetChainEra(l, e).0;
    forall p | p in l.pipes
      ensures p in Waiting(l')
    {
      var i :| 0 <= i < |l.bonded| && l.bonded[i] == p;
      assert ShotOf(l, p, e, l.lastVoter.value) == l'.curShots[i];
    }
  }

  lemma NewEraSettled(l: Ledger, e: u32)
    requires EraInv(l) && SetChainEra(l, e).1.None?
    ensures TotalSettled(SetChainEra(l, e).0) == 0 && TotalActive(SetChainEra(l, e).0) == TotalActive(l)
    ensures EraList(SetChainEra(l, e).0, e) == [] <==> l.bonded == []
  {
    hide EraInv, Waiting, ShotsOf;
    NewEraWaits(l, e);
    var l' := SetChainEra(l, e).0;
    assert Actives(l') == Actives(l);
    assert Settled(l') == map[];
  }

  /** A new era keeps the backing if and only if it is fresh; by EraIsNew it always is between 1 and u32::MAX - 1. */
  lemma NewEraBacked(l: Ledger, slack: nat, e: u32)
    requires EraInv(l) && Backed(l, slack) && SetChainEra(l, e).1.None?
    ensures Backed(SetChainEra(l, e).0, slack) <==> FreshEra(l, slack, e)
  {
    hide EraInv, TotalActive, TotalSettled, ShotsOf;
    NothingListed(l);
    NewEraSettled(l, e);
  }

  lemma NothingListed(l: Ledger)
    requires EraInv(l) && l.curShots == []
    ensures forall e: u32 :: EraList(l, e) == []
  {
    AllFinished(l);
  }

  lemma BondedBacked(l: Ledger, slack: nat, id: ShotId, action: BondAction)
    requires Backed(l, slack)
    ensures Backed(BondReport(l, id, action).0, slack)
  {
    hide TotalActive, TotalSettled, PartWay, Past, Deducted, EraList, ExpectedAt;
    var (l', e) := BondReport(l, id, action);
    if e.None? {
      var pool := l.shots[id].pool;
      DeductedActive(PipeOf(l, pool), l.shots[id], action);
      OneWrite(l, l', pool, l'.pipes[pool]);
    }
  }

  lemma DeductedActive(pipe: LinkChunk, snap: Snapshot, action: BondAction)
    ensures Deducted(pipe, snap, action).active == pipe.active
  {
  }

  lemma QuietBacked(l: Ledger, slack: nat, c: Call)
    requires Backed(l, slack) && !IsActiveReport(c) && !c.NewEra? && !c.InitBond?
    ensures Backed(LedgerStep(l, c).0, slack)
  {
    hide Backed, BondReport, Without, EraList, Transferable, Transfer;
    if c.Send? {
      TransferIssuance(l.bank, c.from, c.to, c.v);
    }
    if c.Bonded? {
      BondedBacked(l, slack, c.id, c.action);
    } else {
      SameBacked(l, LedgerStep(l, c).0, slack);
    }
  }

  lemma TransferIssuance(b: Bank, from: Account, to: Account, v: u128)
    ensures var m := Transfer(b, from, to, v); m.Moved? ==> m.bank.issuance == b.issuance
  {
  }

  lemma SameBacked(l: Ledger, l': Ledger, slack: nat)
    requires Backed(l, slack) && Idle(l, l')
    ensures Backed(l', slack)
  {
    hide TotalActive, TotalSettled, PartWay, Past, ExpectedAt;
    NoWrite(l, l');
  }

  lemma MoreSlack(l: Ledger, slack: nat, more: nat)
    requires Backed(l, slack) && slack <= more
    ensures Backed(l, more)
  {
    MulMono(TotalActive(l) + slack, TotalActive(l) + more, RATEBASE);
  }

  /** The slack after a new era: its earlier reports, if there are any that it is to count again. */
  function NewEraSlack(l: Ledger, slack: nat, e: u32): nat
  {
    if SetChainEra(l, e).1.None? && !FreshEra(l, slack, e) then ExpectedAt(l, e) else slack
  }

  lemma EraBacked(l: Ledger, slack: nat, e: u32)
    requires EraInv(l) && Backed(l, slack)
    ensures Backed(SetChainEra(l, e).0, NewEraSlack(l, slack, e))
  {
    hide EraInv, Backed, SetChainEra;
    if SetChainEra(l, e).1.Some? {
      FailedEra(l, e);
    } else if FreshEra(l, slack, e) {
      NewEraBacked(l, slack, e);
    } else {
      MoreSlack(l, slack, ExpectedAt(l, e));
      NewEraBacked(l, ExpectedAt(l, e), e);
    }
  }

  /** The slack after an active report: what is carried, or what a last report with nothing left is short of. */
  ghost function ReportSlack(l: Ledger, slack: nat, c: Call): nat
    requires IsActiveReport(c) && c.id in l.shots
  {
    if Closes(l, c) && !SomethingLeft(l, Carried(l, slack), c)
    then l.bank.issuance + PipeOf(l, l.shots[c.id].pool).active - TotalActive(l) else Carried(l, slack)
  }

  /** The slack after a call. */
  ghost function SlackAfter(st: State, slack: nat, c: Call): nat
  {
    if c.NewEra? then NewEraSlack(st.l, slack, c.e)
    else if IsActiveReport(c) && Apply(st, c).1 && c.id in st.l.shots then ReportSlack(st.l, slack, c)
    else slack + LateBy(st, c) + RefusedBy(st, c)
  }

  lemma ReportBacked(l: Ledger, slack: nat, c: Call)
    requires EraInv(l) && Backed(l, slack) && IsActiveReport(c) && LedgerStep(l, c).1.None?
    ensures c.id in l.shots && Backed(LedgerStep(l, c).0, ReportSlack(l, slack, c))
  {
    hide EraInv, Backed, LedgerStep, TotalActive, Closes;
    ActiveStep(l, c);
    ActiveBacked(l, slack, c, ReportSlack(l, slack, c));
  }

  lemma StepBacked(st: State, slack: nat, c: Call)
    requires Sound(st) && Backed(st.l, slack)
    ensures Backed(Apply(st, c).0.l, SlackAfter(st, slack, c))
  {
    hide EraInv, RecordsOk, Backed, LedgerStep, PartWay, ExecuteBond, LiquidityUnbond, NewEraSlack, ReportSlack;
    match c {
      case Submit(_, _, _) =>
      case Execute(_, _, _) => ExecuteBacked(st, slack, c);
      case Unbond(_, _, _, _, _) => UnbondBacked(st, slack, c);
      case SetDuration(_) =>
      case SetLimit(_) =>
      case NewEra(e) => LedgerCall(st, c); EraBacked(st.l, slack, e);
      case InitBond(pool, who, amount) => LedgerCall(st, c); InitBondBacked(st.l, slack, pool, who, amount);
      case _ =>
        if !IsActiveReport(c) {
          QuietBacked(st.l, slack, c);
        } else if Apply(st, c).1 {
          ReportBacked(st.l, slack, c);
        } else {
          FailedReport(st.l, c);
        }
    }
  }

  lemma FailedEra(l: Ledger, e: u32)
    requires SetChainEra(l, e).1.Some?
    ensures SetChainEra(l, e).0 == l
  {
  }

  lemma LedgerCall(st: State, c: Call)
    ensures c.NewEra? ==> LedgerStep(st.l, c) == SetChainEra(st.l, c.e)
    ensures c.InitBond? ==> LedgerStep(st.l, c) == SetInitBond(st.l, c.pool, c.who, c.amount)
  {
  }

  // ----- runs

  ghost function SlackRun(st: State, slack: nat, calls: seq<Call>): nat
    decreases |calls|
  {
    if calls == [] then slack else SlackRun(Apply(st, calls[0]).0, SlackAfter(st, slack, calls[0]), calls[1..])
  }

  lemma {:induction false} BackedInRuns(st: State, slack: nat, calls: seq<Call>)
    requires Sound(st) && Backed(st.l, slack)
    ensures Sound(Run(st, calls)) && Backed(Run(st, calls).l, SlackRun(st, slack, calls))
    decreases |calls|
  {
    hide Sound, Backed, Apply, SlackAfter;
    if calls != [] {
      StepKeeps(st, calls[0]);
      StepBacked(st, slack, calls[0]);
      BackedInRuns(Apply(st, calls[0]).0, SlackAfter(st, slack, calls[0]), calls[1..]);
    }
  }

  lemma GenesisBacked(st: State)
    requires Genesis(st)
    ensures Sound(st) && Backed(st.l, 0)
  {
  }

  /** rToken solvency: after any run at all, unless part-way through an era's reports, rate times issuance
      is covered by the active stake and the slack. */
  lemma SolventInRuns(st: State, calls: seq<Call>)
    requires Genesis(st) && !PartWay(Run(st, calls).l)
    ensures Covered(Run(st, calls).l, SlackRun(st, 0, calls))
  {
    hide Sound, Apply, Genesis, Covered, SlackRun, Run;
    GenesisBacked(st);
    BackedInRuns(st, 0, calls);
  }

  /** None of the four: no era set again after reports, no bridged mint to a refused destination and no unbond
      from a reported pool at the wrong time, no last report that finds nothing left. */
  ghost predicate Plain(st: State, c: Call)
  {
    && (c.NewEra? && Apply(st, c).1 ==> FreshEra(st.l, 0, c.e))
    && RefusedBy(st, c) == 0 && LateBy(st, c) == 0
    && (Closes(st.l, c) && Apply(st, c).1 ==> SomethingLeft(st.l, 0, c))
  }

  ghost predicate PlainRun(st: State, calls: seq<Call>)
    decreases |calls|
  {
    calls != [] ==> Plain(st, calls[0]) && PlainRun(Apply(st, calls[0]).0, calls[1..])
  }

  lemma PlainStep(st: State, c: Call)
    requires Plain(st, c)
    ensures SlackAfter(st, 0, c) == 0
  {
    hide LedgerStep, LateBy, RefusedBy, FreshEra, SomethingLeft, Closes, SetChainEra, Carried;
    LedgerCall(st, c);
    CarriesNone(st.l);
  }

  lemma CarriesNone(l: Ledger)
    ensures Carried(l, 0) == 0
  {
  }

  lemma {:induction false} PlainNeedsNone(st: State, calls: seq<Call>)
    requires PlainRun(st, calls)
    ensures SlackRun(st, 0, calls) == 0
    decreases |calls|
  {
    hide Apply, Plain, SlackAfter;
    if calls != [] {
      PlainStep(st, calls[0]);
      PlainNeedsNone(Apply(st, calls[0]).0, calls[1..]);
    }
  }

  /** So runs with none of the four are solvent outright. */
  lemma PlainRunsSolvent(st: State, calls: seq<Call>)
    requires Genesis(st) && PlainRun(st, calls) && !PartWay(Run(st, calls).l)
    ensures Solvent(Run(st, calls).l)
  {
    hide Genesis, PlainRun, Covered, SlackRun, Run;
    PlainNeedsNone(st, calls);
    SolventInRuns(st, calls);
  }
}

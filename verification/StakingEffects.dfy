/** What the staking calls do to balances, pipelines and chunks, in plain sums and inequalities. */
module StakingEffects {
  import opened Arithmetic
  import opened Primitives
  import opened Rate
  import opened Sums
  import opened Tokens
  import opened Ledger
  import opened Series
  import opened Staking
  import opened EraMachine

  /** One pipeline is as given, all others are as before. */
  ghost predicate PipeBecomes(l: Ledger, l': Ledger, pool: PoolId, pipe: LinkChunk)
  {
    PipeOf(l', pool) == pipe && forall p: PoolId :: p != pool ==> PipeOf(l', p) == PipeOf(l, p)
  }

  // ----- init bonds and executions

  /** An init bond adds the pool with its stake, and credits the receiver with rTokens for exactly that. */
  lemma InitBondDoes(l: Ledger, pool: PoolId, who: Account, amount: u128, minted: nat)
    requires SetInitBond(l, pool, who, amount).1.None? && IsMinted(l.rate, amount, minted)
    ensures var l' := SetInitBond(l, pool, who, amount).0;
            && pool in l.pools && pool !in l.bonded && l'.bonded == l.bonded + [pool]
            && PipeBecomes(l, l', pool, LinkChunk(0, 0, amount)) && Credits(l.bank, l'.bank, who, minted)
            && l'.rate == (if l.rate.None? then Some(RATEBASE) else l.rate)
  {
    hide TokenToRtoken, Credits, Mint;
    MintIsExact(l.rate, amount);
    MintedOnce(l.rate, amount, minted, TokenToRtoken(l.rate, amount));
    MintCredits(l.bank, who, TokenToRtoken(l.rate, amount));
  }

  /** The inequalities leave one amount only. */
  lemma MintedOnce(rate: Option<u64>, v: nat, out: nat, out': nat)
    requires IsMinted(rate, v, out) && IsMinted(rate, v, out')
    ensures out == out'
  {
    if rate.Some? && rate.value > 0 && v * RATEBASE < rate.value * (U128_MAX + 1) {
      FloorUnique(v * RATEBASE, rate.value, out, out');
    }
  }

  lemma RedeemedOnce(rate: Option<u64>, v: nat, out: nat, out': nat)
    requires IsRedeemed(rate, v, out) && IsRedeemed(rate, v, out')
    ensures out == out'
  {
    if rate.Some? && rate.value * v < RATEBASE * (U128_MAX + 1) {
      FloorUnique(rate.value * v, RATEBASE, out, out');
    }
  }

  /** An executed bond adds its amount, once, to what is bonded and to the stake of its pool, and credits its
      bonder, or the bridge, with rTokens for exactly that. */
  lemma ExecuteDoes(st: State, c: Call, minted: nat)
    requires c.Execute? && c.pass && Apply(st, c).1 && c.bond in st.s.records
    requires IsMinted(st.l.rate, st.s.records[c.bond].amount, minted)
    ensures var l, l', record := st.l, Apply(st, c).0.l, st.s.records[c.bond]; var pipe := PipeOf(l, record.pool);
            && pipe.bond + record.amount <= U128_MAX && pipe.active + record.amount <= U128_MAX
            && PipeBecomes(l, l', record.pool,
                           LinkChunk(pipe.bond + record.amount, pipe.unbond, pipe.active + record.amount))
            && Credits(l.bank, l'.bank, if c.bond in st.s.swaps then st.s.swaps[c.bond] else record.bonder, minted)
  {
    hide TokenToRtoken, Credits, Mint;
    var l, record := st.l, st.s.records[c.bond];
    MintIsExact(l.rate, record.amount);
    MintedOnce(l.rate, record.amount, minted, TokenToRtoken(l.rate, record.amount));
    MintCredits(l.bank, if c.bond in st.s.swaps then st.s.swaps[c.bond]
                else record.bonder, TokenToRtoken(l.rate, record.amount));
  }

  // ----- unbonds

  /** An unbond of `value` pays the protocol's share to the receiver, burns the rest, and turns exactly what the
      rest is worth from the pool's stake into a claim: in the pipeline, in the era's queue and in the user's list. */
  lemma UnbondDoes(st: State, c: Call, out: nat)
    requires c.Unbond? && Apply(st, c).1
    requires IsRedeemed(st.l.rate, c.value - Min(c.asked, c.value), out)
    ensures var st' := Apply(st, c).0; var l, l', pipe := st.l, st'.l, PipeOf(st.l, c.pool);
            && l.era.Some? && st.s.duration.Some? && l.receiver.Some?
            && Min(c.asked, c.value) < c.value && out <= pipe.active && pipe.unbond + out <= U128_MAX
            && PipeBecomes(l, l', c.pool, LinkChunk(pipe.bond, pipe.unbond + out, pipe.active - out))
            && (exists paid: Bank ::
                  && Pays(l.bank, paid, c.who, l.receiver.value, Min(c.asked, c.value))
                  && Debits(paid, l'.bank, c.who, c.value - Min(c.asked, c.value)))
  {
    hide RtokenToToken, Pruned, Wrap32, Transfer, Burn, Free, Pays, Debits;
    var left := c.value - Cut(c.asked, c.value);
    RedeemIsExact(st.l.rate, left);
    RedeemedOnce(st.l.rate, left, out, RtokenToToken(st.l.rate, left));
    TransferPays(st.l.bank, c.who, st.l.receiver.value, c.value - left);
    var paid := Transfer(st.l.bank, c.who, st.l.receiver.value, c.value - left).bank;
    BurnDebits(paid, c.who, left);
  }

  lemma UnbondQueues(st: State, c: Call, out: nat)
    requires c.Unbond? && Apply(st, c).1 && st.l.era.Some? && st.s.duration.Some?
    requires IsRedeemed(st.l.rate, c.value - Min(c.asked, c.value), out)
    requires st.l.era.value + st.s.duration.value <= U32_MAX
    ensures var l, l', e := st.l, Apply(st, c).0.l, st.l.era.value + st.s.duration.value;
            && out <= U128_MAX
            && UnbondsAt(l', c.pool, e) == UnbondsAt(l, c.pool, e) + [Unbonding(c.who, out)]
            && (forall p: PoolId, f: u32 :: (p, f) != (c.pool, e) ==> UnbondsAt(l', p, f) == UnbondsAt(l, p, f))
  {
    hide RtokenToToken, Pruned, Wrap32, Transfer, Burn, Free;
    var left := c.value - Cut(c.asked, c.value);
    RedeemIsExact(st.l.rate, left);
    RedeemedOnce(st.l.rate, left, out, RtokenToToken(st.l.rate, left));
    NoWrap32(st.l.era.value + st.s.duration.value);
  }

  /** An unbond succeeds exactly if the surroundings allow it, the user has the rTokens and the pool the stake,
      both lists have room, and nothing passes u128. */
  lemma UnbondSucceeds(st: State, c: Call, out: nat)
    requires c.Unbond? && IsRedeemed(st.l.rate, c.value - Min(c.asked, c.value), out)
    ensures var l, s, fee, env := st.l, st.s, Min(c.asked, c.value), c.unbondEnv;
            Apply(st, c).1 <==>
              && env.open && env.recipient && env.receiver && env.payable && c.pool in l.bonded
              && l.era.Some? && s.duration.Some? && l.receiver.Some?
              && fee < c.value <= Free(l.bank, c.who)
              && out <= PipeOf(l, c.pool).active && PipeOf(l, c.pool).unbond + out <= U128_MAX
              && |Pruned(ChunksOf(s, c.who), l.era.value)| < 32
              && (s.unbondLimit == 0 || |UnbondsAt(l, c.pool, Wrap32(l.era.value + s.duration.value))| <= s.unbondLimit)
              && (fee == 0 || c.who == l.receiver.value || Free(l.bank, l.receiver.value) + fee <= U128_MAX)
  {
    hide RtokenToToken, Pruned, Wrap32;
    var left := c.value - Cut(c.asked, c.value);
    RedeemIsExact(st.l.rate, left);
    RedeemedOnce(st.l.rate, left, out, RtokenToToken(st.l.rate, left));
  }

  // ----- bond records

  /** A bond is accepted exactly if the surroundings allow it, and it is a new record of a bonded pool whose
      transaction is unknown or has failed; it is stored, numbered, and dealing. */
  lemma SubmitDoes(st: State, c: Call)
    requires c.Submit?
    ensures var s, record, env := st.s, c.record, c.bondEnv;
            Apply(st, c).1 <==>
              && env.open && env.signature == Valid && env.receiver && env.payable
              && (c.bridger.Some? ==> env.swapable && env.mapped)
              && record.amount > 0 && record.pool in st.l.bonded && BondId(record) !in s.records
              && (record.tx in s.states ==> s.states[record.tx] == Fail) && CountOf(s, record.bonder) < U64_MAX
    ensures Apply(st, c).1 ==>
              var s, s', id := st.s, Apply(st, c).0.s, BondId(c.record);
              && s'.records == s.records[id := c.record] && s'.states == s.states[c.record.tx := Dealing]
              && CountOf(s', c.record.bonder) == CountOf(s, c.record.bonder) + 1
              && s'.byAccount == s.byAccount[(c.record.bonder, CountOf(s, c.record.bonder)) := id]
              && s'.swaps == (if c.bridger.Some? then s.swaps[id := c.bridger.value] else s.swaps)
    ensures !Apply(st, c).1 ==> Apply(st, c).0 == st
  {
  }

  /** An execution in favour succeeds exactly if its transaction is dealing or failed, the surroundings allow it, and
      nothing passes u128; one against fails the transaction. */
  lemma ExecuteSucceeds(st: State, c: Call, minted: nat)
    requires c.Execute? && c.bond in st.s.records && IsMinted(st.l.rate, st.s.records[c.bond].amount, minted)
    ensures var l, s, record := st.l, st.s, st.s.records[c.bond];
            var bridged, pipe := c.bond in s.swaps, PipeOf(l, record.pool);
            var to := if bridged then s.swaps[c.bond] else record.bonder;
            Apply(st, c).1 <==>
              && record.tx in s.states && s.states[record.tx] != Success
              && if c.pass then
                   && pipe.bond + record.amount <= U128_MAX && pipe.active + record.amount <= U128_MAX
                   && (bridged ==> c.env.mapped && c.env.payable && c.env.whitelisted)
                   && Free(l.bank, to) + minted <= U128_MAX
                 else bridged ==> c.env.refundable
    ensures Apply(st, c).1 ==>
              var s, s', record := st.s, Apply(st, c).0.s, st.s.records[c.bond];
              && s' == s.(states := s.states[record.tx := if c.pass then Success else Fail])
              && (!c.pass ==> Apply(st, c).0.l == st.l)
  {
    hide TokenToRtoken, Mint;
    var l, record := st.l, st.s.records[c.bond];
    MintIsExact(l.rate, record.amount);
    MintedOnce(l.rate, record.amount, minted, TokenToRtoken(l.rate, record.amount));
    MintCredits(l.bank, if c.bond in st.s.swaps then st.s.swaps[c.bond]
                else record.bonder, TokenToRtoken(l.rate, record.amount));
  }

  // ----- a new era

  /** A new era starts exactly if the last one is finished, a voter is known, and the era is the next one, or any
      if the last was 0. */
  lemma EraStarts(l: Ledger, e: u32)
    ensures SetChainEra(l, e).1.None? <==>
              l.curShots == [] && l.lastVoter.Some? && (EraOf(l) == 0 || e == Min(EraOf(l) + 1, U32_MAX))
    ensures SetChainEra(l, e).1.Some? ==> SetChainEra(l, e).0 == l
  {
    hide ShotsOf;
  }

  /** And takes one open snapshot of each bonded pool, in order, of its pipeline as it is. */
  lemma EraSnapshots(l: Ledger, e: u32, i: nat)
    requires SetChainEra(l, e).1.None? && i < |l.bonded|
    ensures var l', pipe := SetChainEra(l, e).0, PipeOf(l, l.bonded[i]);
            && l'.era == Some(e) && |l'.curShots| == |l.bonded| && EraList(l', e) == l'.curShots
            && l'.pipes == l.pipes && l'.bank == l.bank && l'.rate == l.rate
            && var id := l'.curShots[i];
               && id in l'.shots && l.lastVoter.Some?
               && l'.shots[id] == Snapshot(e, l.bonded[i], pipe.bond, pipe.unbond, pipe.active, l.lastVoter.value,
                                           EraUpdated)
  {
    var l' := SetChainEra(l, e).0;
    assert l'.curShots[i] in l'.curShots;
  }

  // ----- reports

  /** What the fee of an active report is taken from. */
  function GainOf(l: Ledger, c: Call): nat
    requires IsActiveReport(c) && c.id in l.shots
  {
    var reported := Min(ReportedBy(c), U128_MAX);
    if reported > l.shots[c.id].active then reported - l.shots[c.id].active else 0
  }

  /** The commission: rTokens for the asked share of the gain, credited to the receiver at the rate before the
      report; nobody else's balance moves, and without a gain none does. */
  lemma FeeGoes(l: Ledger, c: Call, minted: nat)
    requires IsActiveReport(c) && LedgerStep(l, c).1.None? && c.id in l.shots
    requires IsMinted(l.rate, Min(c.fee, GainOf(l, c)), minted)
    ensures l.receiver.Some? && l.rate.Some?
    ensures Credits(l.bank, LedgerStep(l, c).0.bank, l.receiver.value, if GainOf(l, c) > 0 then minted else 0)
            || (GainOf(l, c) == 0 && LedgerStep(l, c).0.bank == l.bank)
  {
    hide LedgerStep, TokenToRtoken, Credits, Mint, CountActive;
    ActiveStep(l, c);
    if GainOf(l, c) > 0 {
      var cut := Cut(c.fee, GainOf(l, c));
      MintIsExact(l.rate, cut);
      MintedOnce(l.rate, cut, minted, TokenToRtoken(l.rate, cut));
      MintCredits(l.bank, l.receiver.value, TokenToRtoken(l.rate, cut));
    }
    CountKeepsBank(l, c);
  }

  lemma CountKeepsBank(l: Ledger, c: Call)
    requires IsActiveReport(c) && LedgerStep(l, c).1.None? && c.id in l.shots && l.receiver.Some?
    ensures MintFee(l, l.receiver.value, l.shots[c.id], ActiveOf(c), c.fee) == Moved(LedgerStep(l, c).0.bank)
  {
    hide LedgerStep, MintFee, RateOf, Without, EraList;
    ActiveStep(l, c);
  }

  /** What a report needs of its snapshot, and where it leaves it. */
  predicate Allowed(l: Ledger, c: Call, s: PoolBondState)
    requires IsReport(c)
  {
    match c
    case Bonded(_, _) => s == EraUpdated
    case BondedAndActive(_, _, _, _, _) => s == EraUpdated
    case Withdrawn(_) => s == ActiveReported
    case Transferred(_) =>
      s == WithdrawReported || (s == ActiveReported && (ChainOf(l.symbol) == Tendermint || l.symbol == RBNB))
    case _ => s == BondReported
  }

  function Leaves(l: Ledger, c: Call, snap: Snapshot): PoolBondState
    requires IsReport(c)
  {
    match c
    case Bonded(_, _) => BondReported
    case Withdrawn(_) => WithdrawReported
    case Transferred(_) => TransferReported
    case _ => if (snap.pool, snap.era) in l.unbonds then ActiveReported else WithdrawSkipped
  }

  /** A report on bonding, withdrawal or transfer succeeds exactly if its snapshot is in the state it needs; an active
      report besides needs a rate, a receiver, and a fee that fits. Each leaves its snapshot where it should. */
  lemma ReportTable(l: Ledger, c: Call)
    requires EraInv(l) && IsReport(c)
    ensures LedgerStep(l, c).1.None? ==> c.id in l.shots && Allowed(l, c, l.shots[c.id].state)
    ensures !IsActiveReport(c) && c.id in l.shots && Allowed(l, c, l.shots[c.id].state) ==> LedgerStep(l, c).1.None?
    ensures LedgerStep(l, c).1.None? ==>
              && c.id in LedgerStep(l, c).0.shots
              && LedgerStep(l, c).0.shots[c.id] == l.shots[c.id].(state := Leaves(l, c, l.shots[c.id]))
  {
    hide EraInv, MintFee, Deducted, RateOf, Without;
    if c.id in l.shots && !Continuable(l.shots[c.id].state) {
      UnfinishedIsCurrent(l, c.id);
    }
  }

  lemma ActiveReportSucceeds(l: Ledger, c: Call, minted: nat)
    requires EraInv(l) && IsActiveReport(c) && c.id in l.shots && Allowed(l, c, l.shots[c.id].state)
    requires IsMinted(l.rate, Min(c.fee, GainOf(l, c)), minted)
    ensures LedgerStep(l, c).1.None? <==>
              && l.rate.Some? && l.receiver.Some?
              && (GainOf(l, c) > 0 ==> Free(l.bank, l.receiver.value) + minted <= U128_MAX)
  {
    hide EraInv, TokenToRtoken, Mint, CountActive, Free, Deducted;
    UnfinishedIsCurrent(l, c.id);
    if GainOf(l, c) > 0 && l.receiver.Some? {
      var cut := Cut(c.fee, GainOf(l, c));
      MintIsExact(l.rate, cut);
      MintedOnce(l.rate, cut, minted, TokenToRtoken(l.rate, cut));
      MintCredits(l.bank, l.receiver.value, TokenToRtoken(l.rate, cut));
    }
  }
}

/** Runs of the liquid-staking protocol: root calls, voter reports in any order and
    any number of times, bonds, unbonds and rToken transfers, with a history of what happened. */
module Staking {
  import opened Arithmetic
  import opened Tokens
  import opened Ledger
  import opened Series

  datatype Call =
    | AddPool(pool: PoolId)
    | InitBond(pool: PoolId, who: Account, amount: u128)
    | NewEra(e: u32)
    | Bonded(id: ShotId, action: BondAction)
    | BondedAndActive(id: ShotId, action: BondAction, active: u128, reward: u128, fee: u128)
    | Active(id: ShotId, active: u128, fee: u128)
    | NewActive(id: ShotId, staked: u128, unstaked: u128, fee: u128)
    | Withdrawn(id: ShotId)
    | Transferred(id: ShotId)
    | Submit(record: BondRecord, bridger: Option<Account>, bondEnv: BondEnv)
    | Execute(bond: BondId, pass: bool, env: Env)
    | Unbond(who: Account, pool: PoolId, value: u128, asked: u128, unbondEnv: UnbondEnv)
    | Send(from: Account, to: Account, v: u128)
    | SetVoter(who: Account)
    | SetReceiver(who: Account)
    | SetDuration(blocks: u32)
    | SetLimit(limit: nat)

  /** The calls the ledger pallet handles alone. */
  function LedgerStep(l: Ledger, c: Call): (Ledger, Option<LedgerError>)
  {
    match c
    case AddPool(pool) => AddNewPool(l, pool)
    case InitBond(pool, who, amount) => SetInitBond(l, pool, who, amount)
    case NewEra(e) => SetChainEra(l, e)
    case Bonded(id, action) => BondReport(l, id, action)
    case BondedAndActive(id, action, active, reward, fee) => BondAndReportActive(l, id, action, active, reward, fee)
    case Active(id, active, fee) => ActiveReport(l, id, active, fee)
    case NewActive(id, staked, unstaked, fee) => NewActiveReport(l, id, staked, unstaked, fee)
    case Withdrawn(id) => WithdrawReport(l, id)
    case Transferred(id) => TransferReport(l, id)
    case Send(from, to, v) => (l.(bank := BankStep(l.bank, TransferCall(from, to, v))), None)
    case SetVoter(who) => (l.(lastVoter := Some(who)), None)
    case SetReceiver(who) => (l.(receiver := Some(who)), None)
    case _ => (l, None)
  }

  /** The new state and whether the call succeeded. */
  function Apply(st: State, c: Call): (State, bool)
  {
    match c
    case Submit(record, bridger, env) => var (st', e) := LiquidityBond(st, record, bridger, env); (st', e.None?)
    case Execute(bond, pass, env) => var (st', e) := ExecuteBond(st, bond, pass, env); (st', e.None?)
    case Unbond(who, pool, value, asked, env) =>
      var (st', e) := LiquidityUnbond(st, who, pool, value, asked, env); (st', e.None?)
    case SetDuration(n) => if n == 0 then (st, false) else (st.(s := st.s.(duration := Some(n))), true)
    case SetLimit(n) => (st.(s := st.s.(unbondLimit := n)), true)
    case _ => var (l', e) := LedgerStep(st.l, c); (st.(l := l'), e.None?)
  }

  function Run(st: State, calls: seq<Call>): State
    decreases |calls|
  {
    if calls == [] then st else Run(Apply(st, calls[0]).0, calls[1..])
  }

  /** A symbol before anything has happened. */
  predicate Genesis(st: State)
  {
    && st.l.bonded == [] && st.l.pipes == map[] && st.l.era == None && st.l.shots == map[] && st.l.eraShots == map[]
    && st.l.curShots == [] && st.l.expected == map[] && st.l.rate == None && st.l.eraRates == map[]
       && st.l.bank == EMPTY_BANK
    && st.s.records == map[] && st.s.states == map[] && st.s.swaps == map[] && st.s.chunks == map[]
    && st.s.counts == map[] && st.s.byAccount == map[]
  }

  predicate IsActiveReport(c: Call) { c.BondedAndActive? || c.Active? || c.NewActive? }

  predicate IsReport(c: Call) { c.Bonded? || IsActiveReport(c) || c.Withdrawn? || c.Transferred? }

  // ----- the three active reports as one

  /** The pipeline an active report starts from: combined with a bond report it has changed already. */
  function PipeBefore(l: Ledger, c: Call): LinkChunk
    requires IsActiveReport(c) && c.id in l.shots
  {
    var pipe := PipeOf(l, l.shots[c.id].pool);
    if c.BondedAndActive? then Deducted(pipe.(bond := SatAdd(pipe.bond, c.reward)), l.shots[c.id], c.action) else pipe
  }

  function ActiveOf(c: Call): u128
    requires IsActiveReport(c)
  {
    match c
    case BondedAndActive(_, _, active, reward, _) => SatAdd(active, reward)
    case Active(_, active, _) => active
    case NewActive(_, staked, unstaked, _) => SatAdd(staked, unstaked)
  }

  /** The stake an active report speaks of, as a plain sum. */
  function ReportedBy(c: Call): nat
    requires IsActiveReport(c)
  {
    match c
    case BondedAndActive(_, _, active, reward, _) => active + reward
    case Active(_, active, _) => active
    case NewActive(_, staked, unstaked, _) => staked + unstaked
  }

  function ExtraOf(c: Call): u128 { if c.NewActive? then c.unstaked else 0 }

  /** A successful active report is one `ReportActive`, on a snapshot that was waiting for it. */
  lemma ActiveStep(l: Ledger, c: Call)
    requires IsActiveReport(c) && LedgerStep(l, c).1.None?
    ensures c.id in l.shots && (l.shots[c.id].state == EraUpdated || l.shots[c.id].state == BondReported)
    ensures LedgerStep(l, c) == ReportActive(l, c.id, PipeBefore(l, c), ActiveOf(c), ExtraOf(c), c.fee)
    ensures PipeBefore(l, c).active == PipeOf(l, l.shots[c.id].pool).active
  {
    hide ReportActive;
  }

  /** All checks of an active report come before its writes. */
  lemma FailedReport(l: Ledger, c: Call)
    requires IsActiveReport(c) && LedgerStep(l, c).1.Some?
    ensures LedgerStep(l, c).0 == l
  {
    hide MintFee, CountActive, Deducted;
  }
}

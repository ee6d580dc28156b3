/** rtoken/ledger for one symbol, with the rate and the rToken balances it drives.
    Every era snapshots the bonded pools; each snapshot is then reported on until
    it is finished, and the last active report of the era resets the rate. */
module Ledger {
  import opened Arithmetic
  import opened Primitives
  import opened Rate
  import opened Sums
  import opened Tokens

  type PoolId = string

  datatype LinkChunk = LinkChunk(bond: u128, unbond: u128, active: u128)

  datatype PoolBondState = EraUpdated | BondReported | ActiveReported | WithdrawSkipped | WithdrawReported
    | TransferReported

  datatype Snapshot = Snapshot(era: u32, pool: PoolId, bond: u128, unbond: u128, active: u128, lastVoter: Account,
                               state: PoolBondState)

  /** The hash of a fresh snapshot; hashing is injective, so an id carries what it was made from. */
  datatype ShotId = ShotId(of: Snapshot)

  datatype BondAction = BondOnly | UnbondOnly | BothBondUnbond | EitherBondUnbond | InterDeduct

  datatype Unbonding = Unbonding(who: Account, value: u128)

  datatype Ledger = Ledger(
    symbol: RSymbol,
    pools: seq<PoolId>, bonded: seq<PoolId>, pipes: map<PoolId, LinkChunk>,
    era: Option<u32>, shots: map<ShotId, Snapshot>, eraShots: map<u32, seq<ShotId>>, curShots: seq<ShotId>,
    expected: map<u32, u128>, unbonds: map<(PoolId, u32), seq<Unbonding>>,
    rate: Option<u64>, eraRates: map<u32, u64>, bank: Bank,
    receiver: Option<Account>, lastVoter: Option<Account>)

  datatype LedgerError =
    | PoolAlreadyAdded | PoolNotFound | RepeatInitBond | NoReceiver | EraSkipped | LastVoterNobody | SnapShotNotFound
    | ActiveAlreadySet | AlreadyTransferred | StateNotEraUpdated | StateNotBondReported | StateNotActiveReported
    | StateNotWithdrawReported | LastEraNotContinuable | RateIsNone | TokenFailed

  type Result = (Ledger, Option<LedgerError>)

  function PipeOf(l: Ledger, pool: PoolId): LinkChunk { if pool in l.pipes then l.pipes[pool] else LinkChunk(0, 0, 0) }

  function EraList(l: Ledger, e: u32): seq<ShotId> { if e in l.eraShots then l.eraShots[e] else [] }

  function ExpectedAt(l: Ledger, e: u32): u128 { if e in l.expected then l.expected[e] else 0 }

  function EraOf(l: Ledger): u32 { if l.era.Some? then l.era.value else 0 }

  predicate Continuable(s: PoolBondState) { s == WithdrawSkipped || s == TransferReported }

  /** Whether a transfer may be reported: on Tendermint chains and for rBNB the withdrawal report is skipped. */
  predicate Transferable(symbol: RSymbol, s: PoolBondState)
  {
    s == WithdrawReported || ((ChainOf(symbol) == Tendermint || symbol == RBNB) && s == ActiveReported)
  }

  /** A Perbill share of v: anything between nothing and all of it. */
  function Cut(asked: u128, v: u128): u128 { Min(asked, v) }

  // ----- root calls

  function AddNewPool(l: Ledger, pool: PoolId): Result
  {
    if pool in l.pools then (l, Some(PoolAlreadyAdded)) else (l.(pools := l.pools + [pool]), None)
  }

  function SetInitBond(l: Ledger, pool: PoolId, who: Account, amount: u128): Result
  {
    if pool !in l.pools then (l, Some(PoolNotFound))
    else if pool in l.bonded then (l, Some(RepeatInitBond))
    else match Mint(l.bank, who, TokenToRtoken(l.rate, amount))
      case Failed(_) => (l, Some(TokenFailed))
      case Moved(bank) =>
        (l.(bank := bank, rate := if l.rate.None? then Some(RateOf(0, 0)) else l.rate,
            bonded := l.bonded + [pool], pipes := l.pipes[pool := LinkChunk(0, 0, amount)]), None)
  }

  // ----- a new era

  function ShotOf(l: Ledger, pool: PoolId, e: u32, voter: Account): ShotId
  {
    var pipe := PipeOf(l, pool);
    ShotId(Snapshot(e, pool, pipe.bond, pipe.unbond, pipe.active, voter, EraUpdated))
  }

  function ShotsOf(l: Ledger, bonded: seq<PoolId>, e: u32, voter: Account): seq<ShotId>
  {
    seq(|bonded|, i requires 0 <= i < |bonded| => ShotOf(l, bonded[i], e, voter))
  }

  function SetChainEra(l: Ledger, e: u32): Result
  {
    if l.curShots != [] then (l, Some(LastEraNotContinuable))
    else if l.lastVoter.None? then (l, Some(LastVoterNobody))
    else if EraOf(l) != 0 && SatAdd32(EraOf(l), 1) != e then (l, Some(EraSkipped))
    else
      var ids := ShotsOf(l, l.bonded, e, l.lastVoter.value);
      (l.(shots := l.shots + (map id | id in ids :: id.of), eraShots := l.eraShots[e := ids], curShots := ids,
          era := Some(e)), None)
  }

  // ----- reports on bonding

  /** What a bond report takes out of the pipeline. */
  function Deducted(pipe: LinkChunk, snap: Snapshot, action: BondAction): LinkChunk
  {
    match action
    case BondOnly => pipe.(bond := SatSub(pipe.bond, snap.bond))
    case UnbondOnly => pipe.(unbond := SatSub(pipe.unbond, snap.unbond))
    case BothBondUnbond => pipe.(bond := SatSub(pipe.bond, snap.bond), unbond := SatSub(pipe.unbond, snap.unbond))
    case EitherBondUnbond => pipe
    case InterDeduct =>
      var deduct := if snap.bond >= snap.unbond then snap.unbond else snap.bond;
      pipe.(bond := SatSub(pipe.bond, deduct), unbond := SatSub(pipe.unbond, deduct))
  }

  /** `new_bond_report`; `bond_report` is the same with both sides deducted. */
  function BondReport(l: Ledger, id: ShotId, action: BondAction): Result
  {
    if id !in l.shots then (l, Some(SnapShotNotFound))
    else
      var snap := l.shots[id];
      if snap.state != EraUpdated then (l, Some(StateNotEraUpdated))
      else (l.(pipes := l.pipes[snap.pool := Deducted(PipeOf(l, snap.pool), snap, action)],
               shots := l.shots[id := snap.(state := BondReported)]), None)
  }

  // ----- reports on the active stake

  /** The commission on a gain, minted at the current rate. */
  function MintFee(l: Ledger, receiver: Account, snap: Snapshot, active: u128, fee: u128): Moved
  {
    if active > snap.active then Mint(l.bank, receiver, TokenToRtoken(l.rate, Cut(fee, active - snap.active)))
      else Moved(l.bank)
  }

  /** The pool's stake after a report of `active` where the snapshot had `was`. */
  function ExpectedActive(stake: u128, active: u128, was: u128): u128 { SatSub(SatAdd(stake, active), was) }

  /** The common end of the three active reports: `pipe` is the pool's pipeline after the
      call's own bond and unbond changes, `extra` what is added to its bond afterwards. */
  function ReportActive(l: Ledger, id: ShotId, pipe: LinkChunk, active: u128, extra: u128, fee: u128): Result
    requires id in l.shots
  {
    var snap := l.shots[id];
    if l.rate.None? then (l, Some(RateIsNone))
    else if l.receiver.None? then (l, Some(NoReceiver))
    else if id !in EraList(l, snap.era) then (l, Some(ActiveAlreadySet))
    else if id !in l.curShots then (l, Some(ActiveAlreadySet))
    else match MintFee(l, l.receiver.value, snap, active, fee)
      case Failed(_) => (l, Some(TokenFailed))
      case Moved(bank) => (CountActive(l.(bank := bank), id, pipe, active, extra), None)
  }

  /** The report's own writes, after the fee. */
  function CountActive(l: Ledger, id: ShotId, pipe: LinkChunk, active: u128, extra: u128): Ledger
    requires id in l.shots
  {
    var snap := l.shots[id];
    var expected := ExpectedActive(pipe.active, active, snap.active);
    var total := SatAdd(ExpectedAt(l, snap.era), expected);
    var left := Without(EraList(l, snap.era), id);
    var rate := if left == [] then Some(RateOf(total, l.bank.issuance)) else l.rate;
    var skipped := (snap.pool, snap.era) !in l.unbonds;
    l.(pipes := l.pipes[snap.pool := pipe.(active := expected, bond := SatAdd(pipe.bond, extra))],
        expected := l.expected[snap.era := total],
        eraShots := l.eraShots[snap.era := left],
        rate := rate,
        eraRates := if left == [] then l.eraRates[snap.era := rate.value] else l.eraRates,
        curShots := if skipped then Without(l.curShots, id) else l.curShots,
        shots := l.shots[id := snap.(state := if skipped then WithdrawSkipped else ActiveReported)])
  }

  function BondAndReportActive(l: Ledger, id: ShotId, action: BondAction, active: u128, reward: u128, fee: u128): Result
  {
    if id !in l.shots then (l, Some(SnapShotNotFound))
    else
      var snap := l.shots[id];
      if snap.state != EraUpdated then (l, Some(StateNotEraUpdated))
      else
        var pipe := PipeOf(l, snap.pool);
        ReportActive(l, id, Deducted(pipe.(bond := SatAdd(pipe.bond, reward)), snap, action), SatAdd(active, reward),
                     0, fee)
  }

  function ActiveReport(l: Ledger, id: ShotId, active: u128, fee: u128): Result
  {
    if id !in l.shots then (l, Some(SnapShotNotFound))
    else if l.shots[id].state != BondReported then (l, Some(StateNotBondReported))
    else ReportActive(l, id, PipeOf(l, l.shots[id].pool), active, 0, fee)
  }

  function NewActiveReport(l: Ledger, id: ShotId, staked: u128, unstaked: u128, fee: u128): Result
  {
    if id !in l.shots then (l, Some(SnapShotNotFound))
    else if l.shots[id].state != BondReported then (l, Some(StateNotBondReported))
    else ReportActive(l, id, PipeOf(l, l.shots[id].pool), SatAdd(staked, unstaked), unstaked, fee)
  }

  // ----- reports on withdrawal

  function WithdrawReport(l: Ledger, id: ShotId): Result
  {
    if id !in l.shots then (l, Some(SnapShotNotFound))
    else if l.shots[id].state != ActiveReported then (l, Some(StateNotActiveReported))
    else (l.(shots := l.shots[id := l.shots[id].(state := WithdrawReported)]), None)
  }

  function TransferReport(l: Ledger, id: ShotId): Result
  {
    if id !in l.shots then (l, Some(SnapShotNotFound))
    else if !Transferable(l.symbol, l.shots[id].state) then (l, Some(StateNotWithdrawReported))
    else if id !in l.curShots then (l, Some(AlreadyTransferred))
    else (l.(curShots := Without(l.curShots, id), shots := l.shots[id := l.shots[id].(state := TransferReported)]),
          None)
  }
}

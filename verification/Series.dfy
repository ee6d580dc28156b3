/** rtoken/series for one symbol: bond records and their execution, and unbonding. */
module Series {
  import opened Arithmetic
  import opened Rate
  import opened Tokens
  import opened Ledger

  const MAX_UNLOCKING_CHUNKS: nat := 32
  const MIN_UNLOCKING_CHUNKS: nat := 16

  type Bytes = seq<nat>

  /** Block hash and transaction hash on the bonded chain. */
  type TxKey = (Bytes, Bytes)

  datatype BondState = Dealing | Fail | Success

  datatype BondRecord = BondRecord(bonder: Account, pubkey: Bytes, pool: PoolId, tx: TxKey, amount: u128)

  /** The hash of a bond record; hashing is injective. */
  datatype BondId = BondId(of: BondRecord)

  datatype Chunk = Chunk(pool: PoolId, unlockEra: u32, value: u128)

  /** `swaps` holds the bridge account of records that are minted to another chain; `counts` and `byAccount`
      number each account's records. */
  datatype Series = Series(
    records: map<BondId, BondRecord>, states: map<TxKey, BondState>, swaps: map<BondId, Account>,
    counts: map<Account, u64>, byAccount: map<(Account, u64), BondId>,
    chunks: map<Account, seq<Chunk>>, duration: Option<u32>, unbondLimit: nat)

  datatype SeriesError =
    | BondSwitchClosed | InvalidPubkey | InvalidSignature | NoRelayFeesReceiver | NotSwapable | LiquidityBondZero
    | TxhashUnavailable | PoolNotBonded | BondRepeated | BondNotFound | TxhashUnexecutable
    | ExpireNotSet | OverFlow | RsymbolNotMapped | TransferFailed | ChainNotWhitelisted | LiquidityUnbondZero
    | PoolNotFound
    | NoCurrentEra | BondingDurationNotSet | NoReceiver | Insufficient | NoMoreUnbondingChunks | PoolLimitReached

  datatype State = State(l: Ledger, s: Series)

  type Result = (State, Option<SeriesError>)

  predicate IsAvailable(s: Series, tx: TxKey) { tx !in s.states || s.states[tx] == Fail }

  predicate IsExecutable(s: Series, tx: TxKey) { tx in s.states && s.states[tx] != Success }

  datatype Signature = Valid | BadPubkey | Wrong

  /** What the surroundings decide about a bond: whether the switches are open, the check of the signature, whether
      a fee receiver is set, the bridge's checks of a destination, and whether the native fees can be paid. */
  datatype BondEnv = BondEnv(open: bool, signature: Signature, receiver: bool, swapable: bool, mapped: bool,
                             payable: bool)

  function CountOf(s: Series, who: Account): u64 { if who in s.counts then s.counts[who] else 0 }

  /** Why a bond is refused, if it is. */
  function BondError(st: State, record: BondRecord, bridger: Option<Account>, env: BondEnv): Option<SeriesError>
  {
    if !env.open then Some(BondSwitchClosed)
    else if record.amount == 0 then Some(LiquidityBondZero)
    else if !IsAvailable(st.s, record.tx) then Some(TxhashUnavailable)
    else if record.pool !in st.l.bonded then Some(PoolNotBonded)
    else if env.signature.BadPubkey? then Some(InvalidPubkey)
    else if env.signature.Wrong? then Some(InvalidSignature)
    else if !env.receiver then Some(NoRelayFeesReceiver)
    else if BondId(record) in st.s.records then Some(BondRepeated)
    else if CountOf(st.s, record.bonder) == U64_MAX then Some(OverFlow)
    else if bridger.Some? && !env.swapable then Some(NotSwapable)
    else if bridger.Some? && !env.mapped then Some(RsymbolNotMapped)
    else if !env.payable then Some(TransferFailed)
    else None
  }

  /** `liquidity_bond` and `liquidity_bond_and_swap`; `bridger` is set when the rTokens go to another chain. */
  function LiquidityBond(st: State, record: BondRecord, bridger: Option<Account>, env: BondEnv): Result
  {
    var s, id, n, error := st.s, BondId(record), CountOf(st.s, record.bonder), BondError(st, record, bridger, env);
    if error.Some? then (st, error)
    else (st.(s := s.(swaps := if bridger.Some? then s.swaps[id := bridger.value] else s.swaps,
                      states := s.states[record.tx := Dealing],
                      counts := s.counts[record.bonder := n + 1],
                      byAccount := s.byAccount[(record.bonder, n) := id],
                      records := s.records[id := record])), None)
  }

  /** What the surroundings decide during an execution. */
  datatype Env = Env(mapped: bool, payable: bool, whitelisted: bool, refundable: bool)

  /** `execute_bond_record`. A bridged mint stays even when the bridge transfer after it fails. */
  function ExecuteBond(st: State, id: BondId, pass: bool, env: Env): Result
  {
    var l, s := st.l, st.s;
    if id !in s.records then (st, Some(BondNotFound))
    else
      var record := s.records[id];
      if !IsExecutable(s, record.tx) then (st, Some(TxhashUnexecutable))
      else if !pass then
        if id in s.swaps && !env.refundable then (st, Some(ExpireNotSet))
        else (st.(s := s.(states := s.states[record.tx := Fail])), None)
      else
        var pipe := PipeOf(l, record.pool);
        if pipe.bond + record.amount > U128_MAX || pipe.active + record.amount > U128_MAX then (st, Some(OverFlow))
        else
          var swap := id in s.swaps;
          if swap && !env.mapped then (st, Some(RsymbolNotMapped))
          else if swap && !env.payable then (st, Some(TransferFailed))
          else match Mint(l.bank, if swap then s.swaps[id] else record.bonder, TokenToRtoken(l.rate, record.amount))
            case Failed(_) => (st, Some(TransferFailed))
            case Moved(bank) =>
              if swap && !env.whitelisted then (st.(l := l.(bank := bank)), Some(ChainNotWhitelisted))
              else (State(l.(bank := bank, pipes := l.pipes[record.pool :=
                              pipe.(bond := pipe.bond + record.amount, active := pipe.active + record.amount)]),
                          s.(states := s.states[record.tx := Success])), None)
  }

  // ----- unbonding

  function ActiveChunks(chunks: seq<Chunk>, e: u32): seq<Chunk>
    decreases |chunks|
  {
    if chunks == [] then []
    else if chunks[0].unlockEra >= e then [chunks[0]] + ActiveChunks(chunks[1..], e)
    else ActiveChunks(chunks[1..], e)
  }

  /** The user's list after making room for one more chunk. */
  function Pruned(chunks: seq<Chunk>, e: u32): seq<Chunk>
  {
    if |chunks| < MAX_UNLOCKING_CHUNKS then chunks
    else
      var filtered := ActiveChunks(chunks, e);
      if |filtered| < MIN_UNLOCKING_CHUNKS then chunks[MAX_UNLOCKING_CHUNKS - MIN_UNLOCKING_CHUNKS + 1..] else filtered
  }

  function ChunksOf(s: Series, who: Account): seq<Chunk> { if who in s.chunks then s.chunks[who] else [] }

  function UnbondsAt(l: Ledger, pool: PoolId, e: u32): seq<Unbonding>
  {
    if (pool, e) in l.unbonds then l.unbonds[(pool, e)] else []
  }

  /** What the surroundings decide about an unbond. */
  datatype UnbondEnv = UnbondEnv(open: bool, recipient: bool, receiver: bool, payable: bool)

  /** `liquidity_unbond`; `asked` is the protocol's share. */
  function LiquidityUnbond(st: State, who: Account, pool: PoolId, value: u128, asked: u128, env: UnbondEnv): Result
  {
    var l, s := st.l, st.s;
    if value == 0 then (st, Some(LiquidityUnbondZero))
    else if !env.open then (st, Some(BondSwitchClosed))
    else if pool !in l.bonded then (st, Some(SeriesError.PoolNotFound))
    else if !env.recipient then (st, Some(InvalidPubkey))
    else if l.era.None? then (st, Some(NoCurrentEra))
    else if s.duration.None? then (st, Some(BondingDurationNotSet))
    else if l.receiver.None? then (st, Some(SeriesError.NoReceiver))
    else if !env.receiver then (st, Some(NoRelayFeesReceiver))
    else if Free(l.bank, who) < value then (st, Some(Insufficient))
    else
      var left := value - Cut(asked, value);
      if left == 0 then (st, Some(Insufficient)) else TakeUnbond(st, who, pool, value, left, env.payable)
  }

  /** The rest of `liquidity_unbond`, with `left` of the value after the protocol's share. */
  function TakeUnbond(st: State, who: Account, pool: PoolId, value: u128, left: u128, payable: bool): Result
    requires left <= value && st.l.era.Some? && st.s.duration.Some? && st.l.receiver.Some?
  {
    var l, s := st.l, st.s;
    var balance, pipe := RtokenToToken(l.rate, left), PipeOf(l, pool);
    if pipe.unbond + balance > U128_MAX then (st, Some(OverFlow))
    else if pipe.active < balance then (st, Some(Insufficient))
    else
      var unlock := Wrap32(l.era.value + s.duration.value);
      var kept := Pruned(ChunksOf(s, who), l.era.value);
      var queue := UnbondsAt(l, pool, unlock);
      if |kept| >= MAX_UNLOCKING_CHUNKS then (st, Some(NoMoreUnbondingChunks))
      else if s.unbondLimit != 0 && |queue| > s.unbondLimit then (st, Some(PoolLimitReached))
      else if !payable then (st, Some(TransferFailed))
      else match Transfer(l.bank, who, l.receiver.value, value - left)
        case Failed(_) => (st, Some(TransferFailed))
        case Moved(paid) =>
          match Burn(paid, who, left)
          case Failed(_) => (st.(l := l.(bank := paid)), Some(TransferFailed))
          case Moved(bank) =>
            (State(l.(bank := bank,
                      pipes := l.pipes[pool := pipe.(unbond := pipe.unbond + balance, active := pipe.active - balance)],
                      unbonds := l.unbonds[(pool, unlock) := queue + [Unbonding(who, balance)]]),
                   s.(chunks := s.chunks[who := kept + [Chunk(pool, unlock, balance)]])), None)
  }
}

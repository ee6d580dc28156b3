/** The storage of rtoken/series for one symbol, and its calls as they change it and the ledger. */
module SeriesPallet {
  import opened Arithmetic
  import opened Rate
  import opened Tokens
  import opened Ledger
  import opened Series
  import opened Staking
  import opened EraMachine
  import LedgerPallet

  /** What every call keeps: the state machine of the ledger, and that every record names a bonded pool
      and a transaction whose state is known. */
  ghost predicate Kept(st: State, st': State) { Sound(st) ==> Sound(st') }

  lemma CallKeeps(st: State, c: Call)
    ensures Kept(st, Apply(st, c).0)
  {
    hide Sound, Apply;
    if Sound(st) {
      StepKeeps(st, c);
    }
  }

  class RTokenSeries {
    const ledger: LedgerPallet.RTokenLedger
    var records: map<BondId, BondRecord>
    var states: map<TxKey, BondState>
    var swaps: map<BondId, Account>
    var counts: map<Account, u64>
    var byAccount: map<(Account, u64), BondId>
    var chunks: map<Account, seq<Chunk>>
    var duration: Option<u32>
    var unbondLimit: nat

    function Own(): Series
      reads this
    {
      Series(records, states, swaps, counts, byAccount, chunks, duration, unbondLimit)
    }

    function View(): State
      reads this, ledger, ledger.tokens
    {
      State(ledger.View(), Own())
    }

    constructor (ledger: LedgerPallet.RTokenLedger)
      ensures this.ledger == ledger && Own() == Series(map[], map[], map[], map[], map[], map[], None, 0)
    {
      this.ledger := ledger;
      records, states, swaps, counts, byAccount := map[], map[], map[], map[], map[];
      chunks, duration, unbondLimit := map[], None, 0;
    }

    /** The checks of a bond: the first that fails; what passes is a new record of a bonded pool, and its
        transaction is unknown or has failed. */
    method CheckBond(record: BondRecord, bridger: Option<Account>, env: BondEnv) returns (error: Option<SeriesError>)
      ensures error == BondError(View(), record, bridger, env)
      ensures error.None? ==>
                && CountOf(Own(), record.bonder) < U64_MAX && record.amount > 0 && IsAvailable(Own(), record.tx)
                && record.pool in ledger.bonded && BondId(record) !in records
    {
      if !env.open {
        return Some(BondSwitchClosed);
      }
      if record.amount == 0 {
        return Some(LiquidityBondZero);
      }
      if !(record.tx !in states || states[record.tx] == Fail) {
        return Some(TxhashUnavailable);
      }
      if record.pool !in ledger.bonded {
        return Some(PoolNotBonded);
      }
      match env.signature {
        case BadPubkey => return Some(InvalidPubkey);
        case Wrong => return Some(InvalidSignature);
        case Valid =>
      }
      if !env.receiver {
        return Some(NoRelayFeesReceiver);
      }
      if BondId(record) in records {
        return Some(BondRepeated);
      }
      if record.bonder in counts && counts[record.bonder] == U64_MAX {
        return Some(OverFlow);
      }
      if bridger.Some? && !env.swapable {
        return Some(NotSwapable);
      }
      if bridger.Some? && !env.mapped {
        return Some(RsymbolNotMapped);
      }
      return if env.payable then None else Some(TransferFailed);
    }

    method Bond(record: BondRecord, bridger: Option<Account>, env: BondEnv) returns (error: Option<SeriesError>)
      modifies this
      ensures (View(), error) == LiquidityBond(old(View()), record, bridger, env)
      ensures Kept(old(View()), View())
    {
      hide Kept, BondError;
      CallKeeps(View(), Submit(record, bridger, env));
      error := CheckBond(record, bridger, env);
      if error.None? {
        var id := BondId(record);
        var n := if record.bonder in counts then counts[record.bonder] else 0;
        if bridger.Some? {
          swaps := swaps[id := bridger.value];
        }
        states := states[record.tx := Dealing];
        counts := counts[record.bonder := n + 1];
        byAccount := byAccount[(record.bonder, n) := id];
        records := records[id := record];
      }
    }

    method ExecuteRecord(id: BondId, pass: bool, env: Env) returns (error: Option<SeriesError>)
      modifies this, ledger, ledger.tokens
      ensures (View(), error) == ExecuteBond(old(View()), id, pass, env)
      ensures Kept(old(View()), View())
    {
      hide TokenToRtoken, Kept;
      CallKeeps(View(), Execute(id, pass, env));
      if id !in records {
        return Some(BondNotFound);
      }
      var record := records[id];
      if !(record.tx in states && (states[record.tx] == Dealing || states[record.tx] == Fail)) {
        return Some(TxhashUnexecutable);
      }
      var swap := id in swaps;
      if !pass {
        if swap && !env.refundable {
          return Some(ExpireNotSet);
        }
        states := states[record.tx := Fail];
        return None;
      }
      var pipe := if record.pool in ledger.pipes then ledger.pipes[record.pool] else LinkChunk(0, 0, 0);
      if pipe.bond + record.amount > U128_MAX || pipe.active + record.amount > U128_MAX {
        return Some(OverFlow);
      }
      pipe := pipe.(bond := pipe.bond + record.amount, active := pipe.active + record.amount);
      var to := record.bonder;
      if swap {
        if !env.mapped {
          return Some(RsymbolNotMapped);
        }
        if !env.payable {
          return Some(TransferFailed);
        }
        to := swaps[id];
      }
      var failed := ledger.tokens.MintTo(to, TokenToRtoken(ledger.rate, record.amount));
      if failed.Some? {
        return Some(TransferFailed);
      }
      if swap && !env.whitelisted {
        return Some(ChainNotWhitelisted);
      }
      states := states[record.tx := Success];
      ledger.pipes := ledger.pipes[record.pool := pipe];
      return None;
    }

    /** `filter` over the chunks. */
    method FilterActive(all: seq<Chunk>, e: u32) returns (kept: seq<Chunk>)
      ensures kept == ActiveChunks(all, e)
    {
      kept := [];
      for i := 0 to |all|
        invariant kept + ActiveChunks(all[i..], e) == ActiveChunks(all, e)
      {
        if all[i].unlockEra >= e {
          kept := kept + [all[i]];
        }
        assert all[i..][1..] == all[i + 1..];
      }
    }

    /** Makes room for one more chunk. */
    method Prune(who: Account, e: u32) returns (kept: seq<Chunk>)
      ensures kept == Pruned(ChunksOf(Own(), who), e)
    {
      kept := if who in chunks then chunks[who] else [];
      if |kept| >= MAX_UNLOCKING_CHUNKS {
        var filtered := FilterActive(kept, e);
        if |filtered| < MIN_UNLOCKING_CHUNKS {
          kept := kept[MAX_UNLOCKING_CHUNKS - MIN_UNLOCKING_CHUNKS + 1..];
        } else {
          kept := filtered;
        }
      }
    }

    /** The fee to the receiver, then the rest is burned. */
    method TakeRtokens(who: Account, to: Account, fee: u128, left: u128) returns (failed: bool)
      modifies ledger.tokens
      ensures match Transfer(old(ledger.tokens.View()), who, to, fee)
              case Failed(_) => failed && ledger.tokens.View() == old(ledger.tokens.View())
              case Moved(paid) =>
                match Burn(paid, who, left)
                case Failed(_) => failed && ledger.tokens.View() == paid
                case Moved(bank) => !failed && ledger.tokens.View() == bank
    {
      var unpaid := ledger.tokens.TransferTo(who, to, fee);
      if unpaid.Some? {
        return true;
      }
      var unburned := ledger.tokens.BurnFrom(who, left);
      return unburned.Some?;
    }

    method Unbond(who: Account, pool: PoolId, value: u128, asked: u128, env: UnbondEnv)
      returns (error: Option<SeriesError>)
      modifies this, ledger, ledger.tokens
      ensures (View(), error) == LiquidityUnbond(old(View()), who, pool, value, asked, env)
      ensures Kept(old(View()), View())
    {
      hide TakeUnbond, Free, Kept;
      CallKeeps(View(), Call.Unbond(who, pool, value, asked, env));
      if value == 0 {
        return Some(LiquidityUnbondZero);
      }
      if !env.open {
        return Some(BondSwitchClosed);
      }
      if pool !in ledger.bonded {
        return Some(SeriesError.PoolNotFound);
      }
      if !env.recipient {
        return Some(InvalidPubkey);
      }
      if ledger.era.None? {
        return Some(NoCurrentEra);
      }
      if duration.None? {
        return Some(BondingDurationNotSet);
      }
      if ledger.receiver.None? {
        return Some(SeriesError.NoReceiver);
      }
      if !env.receiver {
        return Some(NoRelayFeesReceiver);
      }
      if Free(ledger.tokens.View(), who) < value {
        return Some(Insufficient);
      }
      var left := value - Cut(asked, value);
      if left == 0 {
        return Some(Insufficient);
      }
      error := TakeValue(who, pool, value, left, env.payable);
    }

    method TakeValue(who: Account, pool: PoolId, value: u128, left: u128, payable: bool)
      returns (error: Option<SeriesError>)
      requires left <= value && ledger.era.Some? && duration.Some? && ledger.receiver.Some?
      modifies this, ledger, ledger.tokens
      ensures (View(), error) == TakeUnbond(old(View()), who, pool, value, left, payable)
    {
      hide RtokenToToken, Pruned, Wrap32, Transfer, Burn, Free;
      var balance := RtokenToToken(ledger.rate, left);
      var pipe := if pool in ledger.pipes then ledger.pipes[pool] else LinkChunk(0, 0, 0);
      if pipe.unbond + balance > U128_MAX {
        return Some(OverFlow);
      }
      if pipe.active < balance {
        return Some(Insufficient);
      }
      pipe := pipe.(unbond := pipe.unbond + balance, active := pipe.active - balance);
      var unlock := Wrap32(ledger.era.value + duration.value);
      var kept := Prune(who, ledger.era.value);
      if |kept| >= MAX_UNLOCKING_CHUNKS {
        return Some(NoMoreUnbondingChunks);
      }
      var queue := if (pool, unlock) in ledger.unbonds then ledger.unbonds[(pool, unlock)] else [];
      if unbondLimit != 0 && |queue| > unbondLimit {
        return Some(PoolLimitReached);
      }
      if !payable {
        return Some(TransferFailed);
      }
      var failed := TakeRtokens(who, ledger.receiver.value, value - left, left);
      if failed {
        return Some(TransferFailed);
      }
      ledger.pipes := ledger.pipes[pool := pipe];
      chunks := chunks[who := kept + [Chunk(pool, unlock, balance)]];
      ledger.unbonds := ledger.unbonds[(pool, unlock) := queue + [Unbonding(who, balance)]];
      return None;
    }
  }
}

/** The storage of rtoken/ledger for one symbol, and its calls as they change it. */
module LedgerPallet {
  import opened Arithmetic
  import opened Primitives
  import opened Rate
  import opened Sums
  import opened Tokens
  import opened Ledger
  import opened Staking
  import opened EraMachine

  /** What every call keeps: the whole state machine of eras and snapshots. */
  ghost predicate Kept(l: Ledger, l': Ledger) { EraInv(l) ==> EraInv(l') }

  lemma CallKeeps(l: Ledger, c: Call)
    ensures Kept(l, LedgerStep(l, c).0)
  {
    hide EraInv, LedgerStep;
    if EraInv(l) {
      LedgerStepKeeps(l, c);
    }
  }

  /** `iter().position(..)`: the first index of `id`, or the length. */
  method Position(shots: seq<ShotId>, id: ShotId) returns (index: nat)
    ensures index <= |shots| && (index < |shots| <==> id in shots) && (index < |shots| ==> shots[index] == id)
    ensures forall i :: 0 <= i < index ==> shots[i] != id
  {
    index := 0;
    while index < |shots| && shots[index] != id
      invariant index <= |shots|
      invariant forall i :: 0 <= i < index ==> shots[i] != id
    {
      index := index + 1;
    }
  }

  /** Removing at the first index is `Without`. */
  lemma {:induction false} RemoveAt(shots: seq<ShotId>, id: ShotId, index: nat)
    requires index < |shots| && shots[index] == id && forall i :: 0 <= i < index ==> shots[i] != id
    ensures shots[..index] + shots[index + 1..] == Without(shots, id)
    decreases index
  {
    if index > 0 {
      var rest := shots[1..];
      RemoveAt(rest, id, index - 1);
      assert shots[..index] + shots[index + 1..] == [shots[0]] + (rest[..index - 1] + rest[index..]);
    }
  }

  method Remove(shots: seq<ShotId>, id: ShotId) returns (left: seq<ShotId>)
    requires id in shots
    ensures left == Without(shots, id)
  {
    var index := Position(shots, id);
    RemoveAt(shots, id, index);
    left := shots[..index] + shots[index + 1..];
  }

  /** The new snapshots, each under its id. */
  function Stored(ids: seq<ShotId>): map<ShotId, Snapshot> { map id | id in ids :: id.of }

  lemma StoreOne(shots: map<ShotId, Snapshot>, ids: seq<ShotId>, id: ShotId)
    ensures shots + Stored(ids + [id]) == (shots + Stored(ids))[id := id.of]
  {
  }

  lemma StoreNone(shots: map<ShotId, Snapshot>)
    ensures shots + Stored([]) == shots
  {
  }

  lemma ShotIs(l: Ledger, pool: PoolId, pipe: LinkChunk, e: u32, voter: Account)
    requires pipe == PipeOf(l, pool)
    ensures ShotOf(l, pool, e, voter) == ShotId(Snapshot(e, pool, pipe.bond, pipe.unbond, pipe.active, voter,
                                                         EraUpdated))
  {
  }

  /** What the pieces of an active report store, taken together. */
  lemma CountedAs(l: Ledger, l': Ledger, id: ShotId, before: LinkChunk, active: u128, extra: u128)
    requires id in l.shots && l.shots[id].era in l.eraShots
    requires var snap := l.shots[id]; var e, stake := snap.era, ExpectedActive(before.active, active, snap.active);
             var left, total := Without(l.eraShots[e], id), SatAdd(if e in l.expected then l.expected[e] else 0, stake);
             var newRate, skipped := RateOf(total, l.bank.issuance), (snap.pool, e) !in l.unbonds;
             && l'.eraShots == l.eraShots[e := left] && l'.expected == l.expected[e := total]
             && l'.rate == (if left == [] then Some(newRate) else l.rate)
             && l'.eraRates == (if left == [] then l.eraRates[e := newRate] else l.eraRates)
             && l'.pipes == l.pipes[snap.pool := before.(active := stake, bond := SatAdd(before.bond, extra))]
             && l'.curShots == (if skipped then Without(l.curShots, id) else l.curShots)
             && l'.shots == l.shots[id := snap.(state := if skipped then WithdrawSkipped else ActiveReported)]
    requires l' == l.(eraShots := l'.eraShots, expected := l'.expected, rate := l'.rate, eraRates := l'.eraRates,
                      pipes := l'.pipes, curShots := l'.curShots, shots := l'.shots)
    ensures l' == CountActive(l, id, before, active, extra)
  {
    hide RateOf, Without, SatAdd, ExpectedActive;
  }

  class RTokenLedger {
    const symbol: RSymbol
    const tokens: TokenBalances
    var pools: seq<PoolId>
    var bonded: seq<PoolId>
    var pipes: map<PoolId, LinkChunk>
    var era: Option<u32>
    var shots: map<ShotId, Snapshot>
    var eraShots: map<u32, seq<ShotId>>
    var curShots: seq<ShotId>
    var expected: map<u32, u128>
    var unbonds: map<(PoolId, u32), seq<Unbonding>>
    var rate: Option<u64>
    var eraRates: map<u32, u64>
    var receiver: Option<Account>
    var lastVoter: Option<Account>

    function View(): Ledger
      reads this, tokens
    {
      Ledger(symbol, pools, bonded, pipes, era, shots, eraShots, curShots, expected, unbonds, rate, eraRates,
             tokens.View(), receiver, lastVoter)
    }

    constructor (symbol: RSymbol)
      ensures fresh(tokens)
      ensures View() == Ledger(symbol, [], [], map[], None, map[], map[], [], map[], map[], None, map[], EMPTY_BANK,
                               None, None)
    {
      this.symbol := symbol;
      tokens := new TokenBalances();
      pools, bonded, pipes, era := [], [], map[], None;
      shots, eraShots, curShots, expected, unbonds := map[], map[], [], map[], map[];
      rate, eraRates, receiver, lastVoter := None, map[], None, None;
    }

    /** `set_rate` of rtoken/rate. */
    method SetRate(total: u128, rtotal: u128) returns (r: u64)
      modifies this`rate
      ensures r == RateOf(total, rtotal) && rate == Some(r)
    {
      r := RATEBASE;
      if total > 0 && rtotal > 0 {
        var computed := MulRational(total, RATEBASE, rtotal);
        if computed.Some? {
          r := computed.value % (U64_MAX + 1);
        }
      }
      rate := Some(r);
    }

    method AddPool(pool: PoolId) returns (error: Option<LedgerError>)
      modifies this
      ensures (View(), error) == AddNewPool(old(View()), pool)
      ensures Kept(old(View()), View())
    {
      hide Kept;
      CallKeeps(View(), Call.AddPool(pool));
      if pool in pools {
        return Some(PoolAlreadyAdded);
      }
      pools := pools + [pool];
      return None;
    }

    method InitBond(pool: PoolId, who: Account, amount: u128) returns (error: Option<LedgerError>)
      modifies this, tokens
      ensures (View(), error) == SetInitBond(old(View()), pool, who, amount)
      ensures Kept(old(View()), View())
    {
      hide TokenToRtoken, Kept;
      CallKeeps(View(), Call.InitBond(pool, who, amount));
      if pool !in pools {
        return Some(LedgerError.PoolNotFound);
      }
      if pool in bonded {
        return Some(RepeatInitBond);
      }
      var failed := tokens.MintTo(who, TokenToRtoken(rate, amount));
      if failed.Some? {
        return Some(TokenFailed);
      }
      if rate.None? {
        var _ := SetRate(0, 0);
      }
      bonded := bonded + [pool];
      pipes := pipes[pool := LinkChunk(0, 0, amount)];
      return None;
    }

    method StartEra(newEra: u32) returns (error: Option<LedgerError>)
      modifies this
      ensures (View(), error) == SetChainEra(old(View()), newEra)
      ensures Kept(old(View()), View())
    {
      hide Kept, ShotsOf;
      CallKeeps(View(), NewEra(newEra));
      if curShots != [] {
        return Some(LastEraNotContinuable);
      }
      if lastVoter.None? {
        return Some(LastVoterNobody);
      }
      var oldEra := if era.Some? then era.value else 0;
      if !(oldEra == 0 || SatAdd32(oldEra, 1) == newEra) {
        return Some(EraSkipped);
      }
      var taken := TakeSnapshots(newEra, lastVoter.value);
      eraShots := eraShots[newEra := taken];
      curShots := taken;
      era := Some(newEra);
      return None;
    }

    /** The loop over the bonded pools. */
    method TakeSnapshots(newEra: u32, voter: Account) returns (taken: seq<ShotId>)
      modifies this`shots
      ensures taken == ShotsOf(old(View()), bonded, newEra, voter)
      ensures shots == old(shots) + Stored(taken)
    {
      hide Stored, ShotOf;
      taken := [];
      ghost var l := View();
      StoreNone(shots);
      for i := 0 to |bonded|
        invariant |taken| == i && forall k :: 0 <= k < i ==> taken[k] == ShotOf(l, bonded[k], newEra, voter)
        invariant shots == old(shots) + Stored(taken)
      {
        var pipe := if bonded[i] in pipes then pipes[bonded[i]] else LinkChunk(0, 0, 0);
        var snapshot := Snapshot(newEra, bonded[i], pipe.bond, pipe.unbond, pipe.active, voter, EraUpdated);
        StoreOne(old(shots), taken, ShotId(snapshot));
        ShotIs(l, bonded[i], pipe, newEra, voter);
        shots := shots[ShotId(snapshot) := snapshot];
        taken := taken + [ShotId(snapshot)];
      }
    }

    method ReportBond(id: ShotId, action: BondAction) returns (error: Option<LedgerError>)
      modifies this
      ensures (View(), error) == BondReport(old(View()), id, action)
      ensures Kept(old(View()), View())
    {
      hide Kept;
      CallKeeps(View(), Bonded(id, action));
      if id !in shots {
        return Some(SnapShotNotFound);
      }
      var snap := shots[id];
      if snap.state != EraUpdated {
        return Some(StateNotEraUpdated);
      }
      var pipe := Deduct(if snap.pool in pipes then pipes[snap.pool] else LinkChunk(0, 0, 0), snap, action);
      pipes := pipes[snap.pool := pipe];
      shots := shots[id := snap.(state := BondReported)];
      return None;
    }

    /** The match on the action. */
    method Deduct(before: LinkChunk, snap: Snapshot, action: BondAction) returns (pipe: LinkChunk)
      ensures pipe == Deducted(before, snap, action)
    {
      pipe := before;
      match action {
        case BondOnly => pipe := pipe.(bond := SatSub(pipe.bond, snap.bond));
        case UnbondOnly => pipe := pipe.(unbond := SatSub(pipe.unbond, snap.unbond));
        case BothBondUnbond =>
          pipe := pipe.(bond := SatSub(pipe.bond, snap.bond));
          pipe := pipe.(unbond := SatSub(pipe.unbond, snap.unbond));
        case EitherBondUnbond =>
        case InterDeduct =>
          var deduct := if snap.bond >= snap.unbond then snap.unbond else snap.bond;
          pipe := pipe.(bond := SatSub(pipe.bond, deduct));
          pipe := pipe.(unbond := SatSub(pipe.unbond, deduct));
      }
    }

    method ReportBondAndActive(id: ShotId, action: BondAction, active: u128, reward: u128, fee: u128)
      returns (error: Option<LedgerError>)
      modifies this, tokens
      ensures (View(), error) == BondAndReportActive(old(View()), id, action, active, reward, fee)
      ensures Kept(old(View()), View())
    {
      hide ReportActive, Deducted, Kept;
      CallKeeps(View(), BondedAndActive(id, action, active, reward, fee));
      if id !in shots {
        return Some(SnapShotNotFound);
      }
      var snap := shots[id];
      if snap.state != EraUpdated {
        return Some(StateNotEraUpdated);
      }
      var pipe := if snap.pool in pipes then pipes[snap.pool] else LinkChunk(0, 0, 0);
      pipe := pipe.(bond := SatAdd(pipe.bond, reward));
      pipe := Deduct(pipe, snap, action);
      error := FinishActive(id, pipe, SatAdd(active, reward), 0, fee);
    }

    method ReportActiveStake(id: ShotId, active: u128, fee: u128) returns (error: Option<LedgerError>)
      modifies this, tokens
      ensures (View(), error) == ActiveReport(old(View()), id, active, fee)
      ensures Kept(old(View()), View())
    {
      hide ReportActive, Kept;
      CallKeeps(View(), Active(id, active, fee));
      if id !in shots {
        return Some(SnapShotNotFound);
      }
      if shots[id].state != BondReported {
        return Some(StateNotBondReported);
      }
      var pool := shots[id].pool;
      error := FinishActive(id, if pool in pipes then pipes[pool] else LinkChunk(0, 0, 0), active, 0, fee);
    }

    method ReportStaked(id: ShotId, staked: u128, unstaked: u128, fee: u128) returns (error: Option<LedgerError>)
      modifies this, tokens
      ensures (View(), error) == NewActiveReport(old(View()), id, staked, unstaked, fee)
      ensures Kept(old(View()), View())
    {
      hide ReportActive, Kept;
      CallKeeps(View(), NewActive(id, staked, unstaked, fee));
      if id !in shots {
        return Some(SnapShotNotFound);
      }
      if shots[id].state != BondReported {
        return Some(StateNotBondReported);
      }
      var pool := shots[id].pool;
      var pipe := if pool in pipes then pipes[pool] else LinkChunk(0, 0, 0);
      error := FinishActive(id, pipe, SatAdd(staked, unstaked), unstaked, fee);
    }

    /** The commission on a gain. */
    method ChargeFee(to: Account, snap: Snapshot, active: u128, fee: u128) returns (failed: bool)
      modifies tokens
      ensures match MintFee(old(View()), to, snap, active, fee)
              case Moved(bank) => !failed && tokens.View() == bank
              case Failed(_) => failed && tokens.View() == old(tokens.View())
    {
      hide TokenToRtoken;
      failed := false;
      if active > snap.active {
        var error := tokens.MintTo(to, TokenToRtoken(rate, Cut(fee, active - snap.active)));
        failed := error.Some?;
      }
    }

    /** Takes the snapshot off its era's list; if it was the last, sets the rate. */
    method CountReport(e: u32, id: ShotId, total: u128)
      requires e in eraShots && id in eraShots[e]
      modifies this`eraShots, this`rate, this`eraRates, this`expected
      ensures var left := Without(old(eraShots[e]), id); var newRate := RateOf(total, tokens.issuance);
              && eraShots == old(eraShots)[e := left] && expected == old(expected)[e := total]
              && rate == (if left == [] then Some(newRate) else old(rate))
              && eraRates == if left == [] then old(eraRates)[e := newRate] else old(eraRates)
    {
      hide RateOf, Without;
      var left := Remove(eraShots[e], id);
      if left == [] {
        var newRate := SetRate(total, tokens.issuance);
        eraRates := eraRates[e := newRate];
      }
      eraShots := eraShots[e := left];
      expected := expected[e := total];
    }

    /** Leaves the snapshot to be withdrawn, or finished if nothing was unbonded for its era. */
    method MarkReported(id: ShotId, snap: Snapshot)
      requires id in curShots
      modifies this`shots, this`curShots
      ensures var skipped := (snap.pool, snap.era) !in unbonds;
              && curShots == (if skipped then Without(old(curShots), id) else old(curShots))
              && shots == old(shots)[id := snap.(state := if skipped then WithdrawSkipped else ActiveReported)]
    {
      hide Without;
      if (snap.pool, snap.era) in unbonds {
        shots := shots[id := snap.(state := ActiveReported)];
      } else {
        curShots := Remove(curShots, id);
        shots := shots[id := snap.(state := WithdrawSkipped)];
      }
    }

    /** What the three active reports have in common, from the rate check on. */
    method FinishActive(id: ShotId, before: LinkChunk, active: u128, extra: u128, fee: u128)
      returns (error: Option<LedgerError>)
      requires id in shots
      modifies this, tokens
      ensures (View(), error) == ReportActive(old(View()), id, before, active, extra, fee)
    {
      hide MintFee, CountActive;
      var snap := shots[id];
      if rate.None? {
        return Some(RateIsNone);
      }
      if receiver.None? {
        return Some(LedgerError.NoReceiver);
      }
      if snap.era !in eraShots || id !in eraShots[snap.era] || id !in curShots {
        return Some(ActiveAlreadySet);
      }
      var failed := ChargeFee(receiver.value, snap, active, fee);
      if failed {
        return Some(TokenFailed);
      }
      Count(id, before, active, extra);
      return None;
    }

    method Count(id: ShotId, before: LinkChunk, active: u128, extra: u128)
      requires id in shots && shots[id].era in eraShots && id in eraShots[shots[id].era] && id in curShots
      modifies this`eraShots, this`rate, this`eraRates, this`expected, this`pipes, this`shots, this`curShots
      ensures View() == CountActive(old(View()), id, before, active, extra)
    {
      hide RateOf, Without, SatAdd, ExpectedActive, CountActive;
      var snap := shots[id];
      var stake := ExpectedActive(before.active, active, snap.active);
      CountReport(snap.era, id, SatAdd(if snap.era in expected then expected[snap.era] else 0, stake));
      pipes := pipes[snap.pool := before.(active := stake, bond := SatAdd(before.bond, extra))];
      MarkReported(id, snap);
      CountedAs(old(View()), View(), id, before, active, extra);
    }

    method ReportWithdrawn(id: ShotId) returns (error: Option<LedgerError>)
      modifies this
      ensures (View(), error) == WithdrawReport(old(View()), id)
      ensures Kept(old(View()), View())
    {
      hide Kept;
      CallKeeps(View(), Withdrawn(id));
      if id !in shots {
        return Some(SnapShotNotFound);
      }
      if shots[id].state != ActiveReported {
        return Some(StateNotActiveReported);
      }
      shots := shots[id := shots[id].(state := WithdrawReported)];
      return None;
    }

    method ReportTransferred(id: ShotId) returns (error: Option<LedgerError>)
      modifies this
      ensures (View(), error) == TransferReport(old(View()), id)
      ensures Kept(old(View()), View())
    {
      hide Kept;
      CallKeeps(View(), Transferred(id));
      if id !in shots {
        return Some(SnapShotNotFound);
      }
      if !Transferable(symbol, shots[id].state) {
        return Some(StateNotWithdrawReported);
      }
      if id !in curShots {
        return Some(AlreadyTransferred);
      }
      curShots := Remove(curShots, id);
      shots := shots[id := shots[id].(state := TransferReported)];
      return None;
    }
  }
}

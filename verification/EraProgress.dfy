/** Every successful report moves its snapshot to a strictly higher rank, so an era of n pools
    is closed within 4n successful reports. */
module EraProgress {
  import opened Arithmetic
  import opened Rate
  import opened Sums
  import opened Tokens
  import opened Ledger
  import opened Series
  import opened Staking
  import opened EraMachine

  function Rank(s: PoolBondState): nat
  {
    match s
    case EraUpdated => 0
    case BondReported => 1
    case ActiveReported => 2
    case WithdrawReported => 3
    case WithdrawSkipped => 4
    case TransferReported => 4
  }

  function RankOf(shots: map<ShotId, Snapshot>, id: ShotId): nat { if id in shots then Rank(shots[id].state) else 4 }

  /** Reports the listed snapshots still have to go through, at most. */
  function WorkOf(shots: map<ShotId, Snapshot>, ids: seq<ShotId>): nat
    decreases |ids|
  {
    if ids == [] then 0 else 4 - RankOf(shots, ids[0]) + WorkOf(shots, ids[1..])
  }

  function Work(l: Ledger): nat { WorkOf(l.shots, l.curShots) }

  lemma {:induction false} WorkSplit(shots: map<ShotId, Snapshot>, ids: seq<ShotId>, id: ShotId)
    requires id in ids
    ensures WorkOf(shots, ids) == 4 - RankOf(shots, id) + WorkOf(shots, Without(ids, id))
    decreases |ids|
  {
    if ids[0] != id {
      WorkSplit(shots, ids[1..], id);
      var rest := Without(ids[1..], id);
      assert Without(ids, id) == [ids[0]] + rest;
      assert ([ids[0]] + rest)[1..] == rest;
    }
  }

  lemma {:induction false} WorkSame(shots: map<ShotId, Snapshot>, shots': map<ShotId, Snapshot>, ids: seq<ShotId>)
    requires forall i :: i in ids ==> RankOf(shots', i) == RankOf(shots, i)
    ensures WorkOf(shots', ids) == WorkOf(shots, ids)
    decreases |ids|
  {
    if ids != [] {
      WorkSame(shots, shots', ids[1..]);
    }
  }

  /** What a successful report does to the snapshots. */
  predicate Advanced(l: Ledger, l': Ledger, id: ShotId)
  {
    && id in l.shots && id in l'.shots && id in l.curShots
    && Rank(l'.shots[id].state) > Rank(l.shots[id].state)
    && l'.shots == l.shots[id := l.shots[id].(state := l'.shots[id].state)]
    && l'.curShots == if Continuable(l'.shots[id].state) then Without(l.curShots, id) else l.curShots
  }

  lemma ReportAdvances(l: Ledger, c: Call)
    requires EraInv(l) && IsReport(c) && LedgerStep(l, c).1.None?
    ensures Advanced(l, LedgerStep(l, c).0, c.id)
  {
    hide EraInv, MintFee, Deducted, RateOf;
    if c.id in l.shots && !Continuable(l.shots[c.id].state) {
      UnfinishedIsCurrent(l, c.id);
    }
  }

  lemma AdvanceWorks(l: Ledger, l': Ledger, id: ShotId)
    requires EraInv(l) && Advanced(l, l', id)
    ensures Work(l') < Work(l)
  {
    hide EraInv;
    var rest := Without(l.curShots, id);
    CurrentRest(l, id);
    WorkSplit(l.shots, l.curShots, id);
    WorkSame(l.shots, l'.shots, rest);
    if !Continuable(l'.shots[id].state) {
      WorkSplit(l'.shots, l.curShots, id);
    }
  }

  lemma CurrentRest(l: Ledger, id: ShotId)
    requires EraInv(l) && id in l.curShots
    ensures id !in Without(l.curShots, id)
  {
    WithoutNoDup(l.curShots, id);
  }

  lemma {:induction false} FreshWork(shots: map<ShotId, Snapshot>, ids: seq<ShotId>)
    requires forall id :: id in ids ==> id in shots && shots[id].state == EraUpdated
    ensures WorkOf(shots, ids) == 4 * |ids|
    decreases |ids|
  {
    if ids != [] {
      FreshWork(shots, ids[1..]);
    }
  }

  lemma NewEraWork(l: Ledger, e: u32)
    requires EraInv(l) && SetChainEra(l, e).1.None?
    ensures Work(l) == 0 && Work(SetChainEra(l, e).0) == 4 * |l.bonded|
  {
    ShotsDistinct(l, l.bonded, e, l.lastVoter.value);
    var l' := SetChainEra(l, e).0;
    FreshWork(l'.shots, l'.curShots);
  }

  lemma NewEraWorkStep(st: State, e: u32)
    requires EraInv(st.l) && Apply(st, NewEra(e)).1
    ensures Work(st.l) == 0 && Work(Apply(st, NewEra(e)).0.l) == 4 * |st.l.bonded|
  {
    hide EraInv, SetChainEra;
    NewEraWork(st.l, e);
  }

  /** Any other call, and any call that fails, leaves every snapshot alone. */
  lemma LedgerIdle(l: Ledger, c: Call)
    requires (!IsReport(c) && !c.NewEra?) || LedgerStep(l, c).1.Some?
    ensures SameShots(l, LedgerStep(l, c).0)
  {
    hide MintFee, Deducted, CountActive, RateOf, TokenToRtoken, ShotsOf, Without, Transfer, Mint;
  }

  lemma OthersIdle(st: State, c: Call)
    requires (!IsReport(c) && !c.NewEra?) || !Apply(st, c).1
    ensures SameShots(st.l, Apply(st, c).0.l)
  {
    hide LedgerStep, BondError, TokenToRtoken, RtokenToToken, Pruned, Wrap32, Transfer, Burn, Mint;
    if !(c.Submit? || c.Execute? || c.Unbond? || c.SetDuration? || c.SetLimit?) {
      LedgerIdle(st.l, c);
    }
  }

  /** Successful reports of a run, and snapshots taken by it. */
  function Reports(st: State, calls: seq<Call>): nat
    decreases |calls|
  {
    if calls == [] then 0
    else (if IsReport(calls[0]) && Apply(st, calls[0]).1 then 1 else 0) + Reports(Apply(st, calls[0]).0, calls[1..])
  }

  function Taken(st: State, calls: seq<Call>): nat
    decreases |calls|
  {
    if calls == [] then 0
    else
      (if calls[0].NewEra? && Apply(st, calls[0]).1 then |st.l.bonded| else 0)
      + Taken(Apply(st, calls[0]).0, calls[1..])
  }

  lemma StepWork(st: State, c: Call)
    requires Sound(st)
    ensures Work(Apply(st, c).0.l) + (if IsReport(c) && Apply(st, c).1 then 1 else 0)
         <= Work(st.l) + 4 * (if c.NewEra? && Apply(st, c).1 then |st.l.bonded| else 0)
  {
    hide LedgerStep, EraInv, RecordsOk;
    if IsReport(c) && Apply(st, c).1 {
      ReportAdvances(st.l, c);
      AdvanceWorks(st.l, Apply(st, c).0.l, c.id);
    } else if c.NewEra? && Apply(st, c).1 {
      NewEraWorkStep(st, c.e);
    } else {
      OthersIdle(st, c);
    }
  }

  /** Over any run: four reports per snapshot taken, at most; and what is still to do is less by every one made. */
  lemma {:induction false} ReportsBounded(st: State, calls: seq<Call>)
    requires Sound(st)
    ensures Reports(st, calls) + Work(Run(st, calls).l) <= Work(st.l) + 4 * Taken(st, calls)
    decreases |calls|
  {
    hide Sound, Apply, Work;
    if calls != [] {
      StepKeeps(st, calls[0]);
      StepWork(st, calls[0]);
      ReportsBounded(Apply(st, calls[0]).0, calls[1..]);
    }
  }

  /** So an era of n pools takes at most 4n successful reports, whatever is called in between. */
  lemma EraCloses(st: State, e: u32, calls: seq<Call>)
    requires Sound(st) && Apply(st, NewEra(e)).1
    requires Taken(Apply(st, NewEra(e)).0, calls) == 0
    ensures var started := Apply(st, NewEra(e)).0;
            && Reports(started, calls) <= 4 * |st.l.bonded|
            && (Reports(started, calls) == 4 * |st.l.bonded| ==> Run(started, calls).l.curShots == [])
  {
    hide Apply, EraInv, RecordsOk, Work;
    var started := Apply(st, NewEra(e)).0;
    StepKeeps(st, NewEra(e));
    NewEraWorkStep(st, e);
    ReportsBounded(started, calls);
    SoundInRuns(started, calls);
    if Run(started, calls).l.curShots != [] {
      ShotsNeedWork(Run(started, calls).l);
    }
  }

  lemma ShotsNeedWork(l: Ledger)
    requires EraInv(l) && l.curShots != []
    ensures Work(l) > 0
  {
    var id := l.curShots[0];
    assert id in l.curShots;
  }
}

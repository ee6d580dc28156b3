/** The rate of an era: written once, by the report that empties the era's list, from the sum
    of what all the era's reports left as active stake. */
module EraRates {
  import opened Arithmetic
  import opened Rate
  import opened Sums
  import opened Tokens
  import opened Ledger
  import opened Series
  import opened Staking
  import opened EraMachine

  /** An era whose list was emptied, with the total and the issuance at that moment. */
  datatype Closing = Closing(era: u32, total: u128, issuance: u128)

  /** What the active reports of a run did: the stake each left in its pool, and the eras they closed. */
  datatype Log = Log(actives: map<ShotId, u128>, closings: seq<Closing>)

  /** Eras that are set at most once; 0 and u32::MAX may follow themselves. */
  predicate Regular(e: u32) { 0 < e < U32_MAX }

  function LogReport(l': Ledger, log: Log, id: ShotId): Log
  {
    var e := id.of.era;
    Log(log.actives[id := PipeOf(l', id.of.pool).active],
        if EraList(l', e) == [] then log.closings + [Closing(e, ExpectedAt(l', e), l'.bank.issuance)] else log.closings)
  }

  function LogStep(st: State, log: Log, c: Call): Log
  {
    if IsActiveReport(c) && Apply(st, c).1 then LogReport(Apply(st, c).0.l, log, c.id) else log
  }

  function OfEra(actives: map<ShotId, u128>, e: u32): map<ShotId, u128>
  {
    map id | id in actives && id.of.era == e :: actives[id]
  }

  /** The sum of the era's reported stakes, as far as it fits. */
  ghost function Reported(log: Log, e: u32): u128 { Min(Sum(OfEra(log.actives, e)), U128_MAX) }

  predicate IsClosed(log: Log, e: u32) { exists i :: 0 <= i < |log.closings| && log.closings[i].era == e }

  predicate HasShots(l: Ledger, e: u32) { exists id :: id in l.shots && id.of.era == e }

  /** Every snapshot of the era is in the log exactly once its active stake has been reported. */
  ghost predicate Complete(l: Ledger, log: Log, e: u32)
  {
    forall id: ShotId :: id.of.era == e ==> (id in log.actives <==> id in l.shots && !Open(l.shots[id].state))
  }

  /** At most one closing, and the stored rate is the one computed there. */
  ghost predicate RatedOnce(l: Ledger, log: Log, e: u32)
  {
    && (e in l.eraRates <==> IsClosed(log, e))
    && (forall i, j :: 0 <= i < |log.closings| && 0 <= j < |log.closings| && log.closings[i].era == e ==>
          log.closings[j].era == e ==> i == j)
    && (forall k :: k in log.closings && k.era == e && e in l.eraRates ==>
          k.total == Reported(log, e) && l.eraRates[e] == RateOf(k.total, k.issuance))
  }

  ghost predicate EraLogged(l: Ledger, log: Log, e: u32)
  {
    && Complete(l, log, e) && RatedOnce(l, log, e)
    && ExpectedAt(l, e) == Reported(log, e)
    && (IsClosed(log, e) <==> HasShots(l, e) && EraList(l, e) == [])
  }

  predicate ShotsPast(l: Ledger) { forall id :: id in l.shots ==> l.era.Some? && id.of.era <= l.era.value }

  ghost predicate Logged(l: Ledger, log: Log) { ShotsPast(l) && forall e: u32 :: Regular(e) ==> EraLogged(l, log, e) }

  // ----- calls that do not concern an era

  /** Nothing of era e is different. */
  ghost predicate Untouched(l: Ledger, log: Log, l': Ledger, log': Log, e: u32)
  {
    && (forall id: ShotId :: id.of.era == e ==>
          && (id in l'.shots <==> id in l.shots)
             && (id in l.shots ==> Open(l'.shots[id].state) == Open(l.shots[id].state))
          && (id in log'.actives <==> id in log.actives))
    && OfEra(log'.actives, e) == OfEra(log.actives, e)
    && ExpectedAt(l', e) == ExpectedAt(l, e) && EraList(l', e) == EraList(l, e)
    && (e in l'.eraRates <==> e in l.eraRates) && (e in l.eraRates ==> l'.eraRates[e] == l.eraRates[e])
    && (log'.closings == log.closings || exists k: Closing :: k.era != e && log'.closings == log.closings + [k])
  }

  lemma SameClosings(log: Log, log': Log, e: u32)
    requires log'.closings == log.closings || exists k: Closing :: k.era != e && log'.closings == log.closings + [k]
    ensures IsClosed(log', e) <==> IsClosed(log, e)
    ensures forall i :: 0 <= i < |log'.closings| && log'.closings[i].era == e ==>
              i < |log.closings| && log.closings[i] == log'.closings[i]
    ensures forall k :: k in log'.closings && k.era == e ==> k in log.closings
  {
    if IsClosed(log, e) {
      var i :| 0 <= i < |log.closings| && log.closings[i].era == e;
      assert log'.closings[i] == log.closings[i];
    }
  }

  lemma UntouchedLogged(l: Ledger, log: Log, l': Ledger, log': Log, e: u32)
    requires EraLogged(l, log, e) && Untouched(l, log, l', log', e)
    ensures EraLogged(l', log', e)
  {
    hide Sum, RateOf, IsClosed;
    SameClosings(log, log', e);
    assert Reported(log', e) == Reported(log, e);
    assert HasShots(l', e) <==> HasShots(l, e) by {
      if HasShots(l, e) {
        var id :| id in l.shots && id.of.era == e;
        assert id in l'.shots;
      }
      if HasShots(l', e) {
        var id :| id in l'.shots && id.of.era == e;
        assert id in l.shots;
      }
    }
    assert Complete(l', log', e);
  }

  // ----- a new era

  lemma NewEraLogged(l: Ledger, log: Log, e: u32)
    requires EraInv(l) && Logged(l, log)
    ensures Logged(SetChainEra(l, e).0, log)
  {
    hide EraInv, EraLogged, Untouched, ShotsOf;
    var (l', error) := SetChainEra(l, e);
    if error.None? {
      var ids := l'.curShots;
      NewShots(l, e);
      forall f: u32 | Regular(f)
        ensures EraLogged(l', log, f)
      {
        if f == e {
          FirstLogged(l, l', log, e);
        } else {
          OtherEras(l, l', log, e, f);
        }
      }
    }
  }

  lemma NewShots(l: Ledger, e: u32)
    requires EraInv(l) && SetChainEra(l, e).1.None?
    ensures var ids := SetChainEra(l, e).0.curShots;
            forall id :: id in ids ==> id.of.era == e && id.of.state == EraUpdated
  {
    ShotsDistinct(l, l.bonded, e, l.lastVoter.value);
  }

  lemma OtherEras(l: Ledger, l': Ledger, log: Log, e: u32, f: u32)
    requires EraLogged(l, log, f) && f != e && l' == SetChainEra(l, e).0 && SetChainEra(l, e).1.None?
    requires forall id :: id in l'.curShots ==> id.of.era == e
    ensures EraLogged(l', log, f)
  {
    hide EraLogged, ShotsOf;
    UntouchedLogged(l, log, l', log, f);
  }

  lemma RatesStay(l: Ledger, l': Ledger, log: Log, e: u32)
    requires RatedOnce(l, log, e) && l'.eraRates == l.eraRates
    ensures RatedOnce(l', log, e)
  {
  }

  /** A regular era is new when it is set, so its log starts empty. */
  lemma FirstLogged(l: Ledger, l': Ledger, log: Log, e: u32)
    requires Regular(e) && ShotsPast(l) && EraLogged(l, log, e) && l' == SetChainEra(l, e).0
             && SetChainEra(l, e).1.None?
    requires forall id :: id in l'.curShots ==> id.of.era == e && id.of.state == EraUpdated
    ensures EraLogged(l', log, e)
  {
    hide Sum, RateOf, ShotsOf, RatedOnce;
    assert forall id :: id in l.shots ==> id.of.era != e;
    RatesStay(l, l', log, e);
    assert !HasShots(l, e);
    var ids := l'.curShots;
    if ids != [] {
      assert ids[0] in ids;
      assert ids[0] in l'.shots;
    } else {
      assert l'.shots == l.shots;
    }
  }

  // ----- active reports

  /** What a successful active report stores, as far as the log is concerned. */
  predicate ReportedOn(l: Ledger, l': Ledger, id: ShotId, v: u128)
  {
    var e := id.of.era;
    && id in l.shots && id in l'.shots && Open(l.shots[id].state) && !Open(l'.shots[id].state)
    && l'.shots == l.shots[id := l'.shots[id]] && l'.era == l.era
    && PipeOf(l', id.of.pool).active == v
    && id in EraList(l, e) && l'.eraShots == l.eraShots[e := Without(EraList(l, e), id)]
    && l'.expected == l.expected[e := SatAdd(ExpectedAt(l, e), v)]
    && l'.eraRates == if Without(EraList(l, e), id) == []
       then l.eraRates[e := RateOf(ExpectedAt(l', e), l'.bank.issuance)] else l.eraRates
  }

  lemma ActiveReported(l: Ledger, id: ShotId, pipe: LinkChunk, active: u128, extra: u128, fee: u128)
    requires EraInv(l) && id in l.shots && Open(l.shots[id].state)
             && ReportActive(l, id, pipe, active, extra, fee).1.None?
    ensures var l' := ReportActive(l, id, pipe, active, extra, fee).0;
            ReportedOn(l, l', id, PipeOf(l', id.of.pool).active)
  {
    hide MintFee, RateOf, CurrentOk, EraListsOk, NowOk, OnePerPool, PoolsOk;
  }

  lemma OfEraInsert(actives: map<ShotId, u128>, id: ShotId, v: u128, e: u32)
    requires id !in actives
    ensures id.of.era == e ==> Sum(OfEra(actives[id := v], e)) == Sum(OfEra(actives, e)) + v
    ensures id.of.era != e ==> OfEra(actives[id := v], e) == OfEra(actives, e)
  {
    if id.of.era == e {
      SumInsert(OfEra(actives, e), id, v);
      assert OfEra(actives[id := v], e) == OfEra(actives, e)[id := v];
    }
  }

  lemma OtherReported(l: Ledger, log: Log, l': Ledger, id: ShotId, v: u128, f: u32)
    requires ReportedOn(l, l', id, v) && f != id.of.era && EraLogged(l, log, f)
    ensures EraLogged(l', LogReport(l', log, id), f)
  {
    hide EraLogged, RateOf;
    var log' := LogReport(l', log, id);
    assert OfEra(log'.actives, f) == OfEra(log.actives, f);
    UntouchedLogged(l, log, l', log', f);
  }

  lemma TotalReported(l: Ledger, log: Log, l': Ledger, id: ShotId, v: u128)
    requires ReportedOn(l, l', id, v) && EraLogged(l, log, id.of.era)
    ensures var log' := LogReport(l', log, id); ExpectedAt(l', id.of.era) == Reported(log', id.of.era)
  {
    hide RatedOnce, RateOf;
    OfEraInsert(log.actives, id, v, id.of.era);
  }

  lemma LastReport(l: Ledger, log: Log, l': Ledger, id: ShotId, v: u128)
    requires ReportedOn(l, l', id, v) && EraLogged(l, log, id.of.era)
    ensures var log', e := LogReport(l', log, id), id.of.era;
            RatedOnce(l', log', e) && (IsClosed(log', e) <==> EraList(l', e) == [])
  {
    hide RateOf, Reported;
    TotalReported(l, log, l', id, v);
    var log', e := LogReport(l', log, id), id.of.era;
    assert !IsClosed(log, e);
    if EraList(l', e) == [] {
      var n := |log.closings|;
      assert log'.closings[n].era == e;
      assert forall i :: 0 <= i < |log'.closings| && log'.closings[i].era == e ==> i == n;
    }
  }

  lemma OwnReported(l: Ledger, log: Log, l': Ledger, id: ShotId, v: u128)
    requires ReportedOn(l, l', id, v) && EraLogged(l, log, id.of.era)
    ensures EraLogged(l', LogReport(l', log, id), id.of.era)
  {
    hide RateOf, Reported, RatedOnce, IsClosed;
    TotalReported(l, log, l', id, v);
    LastReport(l, log, l', id, v);
    assert id in l'.shots;
  }

  lemma ReportLogged(l: Ledger, log: Log, l': Ledger, id: ShotId, v: u128)
    requires Logged(l, log) && ReportedOn(l, l', id, v)
    ensures Logged(l', LogReport(l', log, id))
  {
    hide EraLogged, LogReport, RateOf;
    forall e: u32 | Regular(e)
      ensures EraLogged(l', LogReport(l', log, id), e)
    {
      if e == id.of.era {
        OwnReported(l, log, l', id, v);
      } else {
        OtherReported(l, log, l', id, v, e);
      }
    }
  }

  // ----- every call

  /** The other reports change neither the set of snapshots nor which of them are open. */
  lemma QuietLogged(st: State, log: Log, c: Call)
    requires Sound(st) && Logged(st.l, log) && !c.NewEra? && (!IsActiveReport(c) || !Apply(st, c).1)
    ensures Logged(Apply(st, c).0.l, log)
  {
    hide EraLogged, RecordsOk, EraInv;
    var l, l' := st.l, Apply(st, c).0.l;
    QuietStep(st, c);
    forall e: u32 | Regular(e)
      ensures EraLogged(l', log, e)
    {
      assert ExpectedAt(l', e) == ExpectedAt(l, e) && EraList(l', e) == EraList(l, e);
      UntouchedLogged(l, log, l', log, e);
    }
  }

  /** Nothing the log speaks of is different. */
  ghost predicate Quiet(l: Ledger, l': Ledger)
  {
    && l'.era == l.era && l'.eraShots == l.eraShots && l'.expected == l.expected && l'.eraRates == l.eraRates
    && (forall id :: id in l'.shots <==> id in l.shots)
    && (forall id :: id in l.shots ==> Open(l'.shots[id].state) == Open(l.shots[id].state))
  }

  lemma QuietMove(l: Ledger, l': Ledger, id: ShotId)
    requires id in l.shots && id in l'.shots && l'.shots == l.shots[id := l'.shots[id]]
             && Open(l'.shots[id].state) == Open(l.shots[id].state)
    requires l'.era == l.era && l'.eraShots == l.eraShots && l'.expected == l.expected && l'.eraRates == l.eraRates
    ensures Quiet(l, l')
  {
  }

  lemma QuietReport(l: Ledger, c: Call)
    requires c.Bonded? || c.Withdrawn? || c.Transferred?
    ensures Quiet(l, LedgerStep(l, c).0)
  {
    hide Deducted, Quiet, EraList, Without;
    var (l', e) := LedgerStep(l, c);
    if e.None? {
      QuietMove(l, l', c.id);
    } else {
      QuietSame(l, l');
    }
  }

  lemma QuietLedger(l: Ledger, c: Call)
    requires !c.NewEra? && (!IsActiveReport(c) || LedgerStep(l, c).1.Some?)
    ensures Quiet(l, LedgerStep(l, c).0)
  {
    hide ReportActive, BondReport, WithdrawReport, TransferReport, Deducted, RateOf, TokenToRtoken, Quiet;
    if IsActiveReport(c) {
      FailedReport(l, c);
      QuietSame(l, l);
    } else if IsReport(c) {
      QuietReport(l, c);
    } else {
      QuietSame(l, LedgerStep(l, c).0);
    }
  }

  lemma QuietSame(l: Ledger, l': Ledger)
    requires l'.shots == l.shots && l'.era == l.era && l'.eraShots == l.eraShots && l'.expected == l.expected
             && l'.eraRates == l.eraRates
    ensures Quiet(l, l')
  {
  }

  lemma QuietStep(st: State, c: Call)
    requires !c.NewEra? && (!IsActiveReport(c) || !Apply(st, c).1)
    ensures Quiet(st.l, Apply(st, c).0.l)
  {
    hide LedgerStep, Quiet, BondError, TokenToRtoken, RtokenToToken, Pruned, Wrap32, Transfer, Burn, Mint;
    if c.Submit? || c.Execute? || c.Unbond? || c.SetDuration? || c.SetLimit? {
      QuietSame(st.l, Apply(st, c).0.l);
    } else {
      QuietLedger(st.l, c);
    }
  }

  lemma StepLogged(st: State, log: Log, c: Call)
    requires Sound(st) && Logged(st.l, log)
    ensures Logged(Apply(st, c).0.l, LogStep(st, log, c))
  {
    hide EraInv, RecordsOk, Logged, ReportActive, LogReport;
    if c.NewEra? {
      NewEraLogged(st.l, log, c.e);
    } else if IsActiveReport(c) && Apply(st, c).1 {
      ActiveStep(st.l, c);
      ActiveReported(st.l, c.id, PipeBefore(st.l, c), ActiveOf(c), ExtraOf(c), c.fee);
      var l' := Apply(st, c).0.l;
      ReportLogged(st.l, log, l', c.id, PipeOf(l', c.id.of.pool).active);
    } else {
      QuietLogged(st, log, c);
    }
  }

  function LogRun(st: State, log: Log, calls: seq<Call>): Log
    decreases |calls|
  {
    if calls == [] then log else LogRun(Apply(st, calls[0]).0, LogStep(st, log, calls[0]), calls[1..])
  }

  /** In every run, for every era but 0 and u32::MAX: the expected total is the sum over the era's reports,
      and the era's rate was written, once and from that sum, exactly if all its snapshots are reported. */
  lemma {:induction false} RatesInRuns(st: State, log: Log, calls: seq<Call>)
    requires Sound(st) && Logged(st.l, log)
    ensures Logged(Run(st, calls).l, LogRun(st, log, calls))
    decreases |calls|
  {
    hide Sound, Logged, Apply, LogStep;
    if calls != [] {
      StepKeeps(st, calls[0]);
      StepLogged(st, log, calls[0]);
      RatesInRuns(Apply(st, calls[0]).0, LogStep(st, log, calls[0]), calls[1..]);
    }
  }

  /** A rate once written is never written again. */
  lemma RateStays(st: State, log: Log, c: Call, e: u32)
    requires Sound(st) && Logged(st.l, log) && Regular(e) && e in st.l.eraRates
    ensures e in Apply(st, c).0.l.eraRates && Apply(st, c).0.l.eraRates[e] == st.l.eraRates[e]
  {
    hide EraInv, RecordsOk, ReportActive, Complete, RateOf, Reported, HasShots;
    assert EraLogged(st.l, log, e);
    if IsActiveReport(c) && Apply(st, c).1 {
      ActiveStep(st.l, c);
      ActiveReported(st.l, c.id, PipeBefore(st.l, c), ActiveOf(c), ExtraOf(c), c.fee);
    } else if !c.NewEra? {
      QuietStep(st, c);
    }
  }

  lemma {:induction false} RateStaysInRuns(st: State, log: Log, calls: seq<Call>, e: u32)
    requires Sound(st) && Logged(st.l, log) && Regular(e) && e in st.l.eraRates
    ensures e in Run(st, calls).l.eraRates && Run(st, calls).l.eraRates[e] == st.l.eraRates[e]
    decreases |calls|
  {
    hide Sound, Logged, Apply, LogStep;
    if calls != [] {
      StepKeeps(st, calls[0]);
      StepLogged(st, log, calls[0]);
      RateStays(st, log, calls[0], e);
      RateStaysInRuns(Apply(st, calls[0]).0, LogStep(st, log, calls[0]), calls[1..], e);
    }
  }

  const NO_LOG := Log(map[], [])

  /** From the start of a symbol, and era by era. */
  lemma RatesFromGenesis(st: State, calls: seq<Call>, e: u32)
    requires Genesis(st) && Regular(e)
    ensures EraLogged(Run(st, calls).l, LogRun(st, NO_LOG, calls), e)
  {
    hide Run, LogRun, EraLogged;
    GenesisLogged(st);
    RatesInRuns(st, NO_LOG, calls);
  }

  lemma GenesisLogged(st: State)
    requires Genesis(st)
    ensures Sound(st) && Logged(st.l, NO_LOG)
  {
    hide Sum;
    forall e: u32 | Regular(e)
      ensures EraLogged(st.l, NO_LOG, e)
    {
      assert OfEra(NO_LOG.actives, e) == map[];
      EmptySum();
    }
  }

  lemma EmptySum()
    ensures var none: map<ShotId, u128> := map[]; Sum(none) == 0
  {
  }
}

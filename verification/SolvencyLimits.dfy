/** Why solvency carries its slack: four runs, one for each cause and each from an unused symbol, that
    end insolvent and need all of it. */
module SolvencyLimits {
  import opened Arithmetic
  import opened Rate
  import opened Sums
  import opened Tokens
  import opened Ledger
  import opened Series
  import opened Staking
  import opened Reachable
  import opened Solvency
  import opened SingleMint

  // ----- one pool of 100 tokens and 100 rTokens

  function Shot(e: u32, pool: PoolId): ShotId { ShotId(Snapshot(e, pool, 0, 0, 100, 0, EraUpdated)) }

  /** Between eras: the pool's stake, the era, the rate and the totals so far. */
  predicate Resting(l: Ledger, stake: u128, era: Option<u32>, rate: u64, expected: map<u32, u128>)
  {
    && l.bonded == ["a"] && l.pipes == map["a" := LinkChunk(0, 0, stake)] && l.bank == Bank(map[7 := 100], 100)
    && l.unbonds == map[]
    && l.receiver == Some(9) && l.lastVoter == Some(0) && l.curShots == []
    && l.era == era && l.rate == Some(rate) && l.expected == expected && (era.Some? ==> EraList(l, era.value) == [])
  }

  /** The pool's bond is reported and its active stake is not. */
  predicate Awaiting(l: Ledger, e: u32, expected: map<u32, u128>)
  {
    var id := Shot(e, "a");
    && l.bonded == ["a"] && l.pipes == map["a" := LinkChunk(0, 0, 100)]
    && l.bank == Bank(map[7 := 100], 100) && l.unbonds == map[]
    && l.receiver == Some(9) && l.lastVoter == Some(0) && l.curShots == [id] && EraList(l, e) == [id]
    && id in l.shots && l.shots[id] == id.of.(state := BondReported)
    && l.era == Some(e) && l.rate.Some? && l.expected == expected
  }

  function OnePool(): State
  {
    Then(Then(Then(Then(UNUSED, AddPool("a")), InitBond("a", 7, 100)), SetVoter(0)), SetReceiver(9))
  }

  lemma OnePoolIs()
    ensures Resting(OnePool().l, 100, None, RATEBASE, map[])
  {
    hide Floor;
    FirstRate(100);
  }

  lemma OnePoolRests()
    ensures Resting(OnePool().l, 100, None, RATEBASE, map[]) && Reached(OnePool())
  {
    hide Then, Reached, Resting, UNUSED;
    OnePoolIs();
    ReachedUnused();
    ReachedThen(UNUSED, AddPool("a"));
    ReachedThen(Then(UNUSED, AddPool("a")), InitBond("a", 7, 100));
    ReachedThen(Then(Then(UNUSED, AddPool("a")), InitBond("a", 7, 100)), SetVoter(0));
    ReachedThen(Then(Then(Then(UNUSED, AddPool("a")), InitBond("a", 7, 100)), SetVoter(0)), SetReceiver(9));
  }

  function Opened(st: State, e: u32): State { Then(Then(st, NewEra(e)), Bonded(Shot(e, "a"), BothBondUnbond)) }

  lemma OpenedAwaits(st: State, e: u32, rate: u64, expected: map<u32, u128>)
    requires Resting(st.l, 100, None, rate, expected) || (e == 0 && Resting(st.l, 100, Some(0), rate, expected))
    requires Reached(st)
    ensures Awaiting(Opened(st, e).l, e, expected) && Reached(Opened(st, e))
  {
    hide Reached, Run;
    ReachedThen(st, NewEra(e));
    ReachedThen(Then(st, NewEra(e)), Bonded(Shot(e, "a"), BothBondUnbond));
    var l, id := Then(st, NewEra(e)).l, Shot(e, "a");
    assert ShotsOf(st.l, ["a"], e, 0) == [id];
    assert id in l.curShots && l.shots[id] == id.of;
    var l' := Opened(st, e).l;
    assert l'.pipes == st.l.pipes;
  }

  function Closed100(st: State, e: u32, active: u128): State { Then(st, Active(Shot(e, "a"), active, 0)) }

  lemma ClosedRests(st: State, e: u32, active: u128, expected: map<u32, u128>)
    requires Awaiting(st.l, e, expected) && active <= 100 && Reached(st)
    ensures var before := if e in expected then expected[e] else 0; var total := SatAdd(before, active);
            var l' := Closed100(st, e, active).l;
            && Resting(l', active, Some(e), RateOf(total, 100), expected[e := total])
            && Reached(Closed100(st, e, active))
  {
    hide Reached, Run, RateOf;
    ReachedThen(st, Active(Shot(e, "a"), active, 0));
    var id := Shot(e, "a");
    assert Without([id], id) == [];
    assert ActiveReport(st.l, id, active, 0).1.None?;
  }

  lemma OneSum(l: Ledger, stake: u128)
    requires l.pipes == map["a" := LinkChunk(0, 0, stake)]
    ensures TotalActive(l) == stake
  {
    var none: map<PoolId, nat> := map[];
    SumInsert(none, "a", stake);
    assert Actives(l) == map["a" := stake] == none["a" := stake];
  }

  lemma RestingCovered(l: Ledger, stake: u128, era: Option<u32>, rate: u64, expected: map<u32, u128>, slack: nat)
    requires Resting(l, stake, era, rate, expected)
    ensures !PartWay(l) || era.None?
    ensures Covered(l, slack) <==> rate * 100 <= RATEBASE * (stake + slack)
  {
    hide Sum;
    OneSum(l, stake);
  }

  // ----- a last report that finds nothing

  const SLASHED: State := Closed100(Opened(OnePool(), 5), 5, 0)

  /** The whole stake is slashed before the era's only report: the rate goes back to one with nothing behind
      100 rTokens. */
  lemma NothingLeftBreaks()
    ensures Reached(SLASHED) && !PartWay(SLASHED.l) && !Covered(SLASHED.l, 99) && Covered(SLASHED.l, 100)
    ensures var c := Active(Shot(5, "a"), 0, 0); var l := Opened(OnePool(), 5).l; Closes(l, c) && TotalWith(l, c) == 0
  {
    hide Reached, Resting, RateOf, Covered;
    OnePoolRests();
    OpenedAwaits(OnePool(), 5, RATEBASE, map[]);
    ClosedRests(Opened(OnePool(), 5), 5, 0, map[]);
    ZeroRate();
    RestingCovered(SLASHED.l, 0, Some(5), RATEBASE, map[5 := 0], 99);
    RestingCovered(SLASHED.l, 0, Some(5), RATEBASE, map[5 := 0], 100);
    assert map[][5 := 0] == map[5 := 0];
  }

  lemma ZeroRate()
    ensures RateOf(0, 100) == RATEBASE
  {
  }

  // ----- era 0 set twice

  const ONCE: State := Closed100(Opened(OnePool(), 0), 0, 100)

  const TWICE: State := Closed100(Opened(ONCE, 0), 0, 100)

  lemma OnceRests()
    ensures Resting(ONCE.l, 100, Some(0), RATEBASE, map[0 := 100]) && Reached(ONCE)
  {
    hide Reached, RateOf, Then;
    OnePoolRests();
    OpenedAwaits(OnePool(), 0, RATEBASE, map[]);
    ClosedRests(Opened(OnePool(), 0), 0, 100, map[]);
    RateIs(100, 100, RATEBASE);
    var first: map<u32, u128> := map[0 := 100];
    assert map[][0 := 100] == first;
  }

  /** Setting era 0 again adds its reports to the first ones: the rate doubles with nothing behind it,
      and what era 0 had reported before is the slack. */
  lemma EraZeroTwiceBreaks()
    ensures Reached(ONCE) && Solvent(ONCE.l) && !FreshEra(ONCE.l, 0, 0)
    ensures Reached(TWICE) && !PartWay(TWICE.l) && !Covered(TWICE.l, 99) && Covered(TWICE.l, 100)
  {
    hide Reached, RateOf, Then, Covered;
    OnceRests();
    var first: map<u32, u128> := map[0 := 100];
    RestingCovered(ONCE.l, 100, Some(0), RATEBASE, first, 0);
    OpenedAwaits(ONCE, 0, RATEBASE, first);
    ClosedRests(Opened(ONCE, 0), 0, 100, first);
    RateIs(200, 100, 2 * RATEBASE);
    RestingCovered(TWICE.l, 100, Some(0), 2 * RATEBASE, first[0 := 200], 99);
    RestingCovered(TWICE.l, 100, Some(0), 2 * RATEBASE, first[0 := 200], 100);
  }

  lemma RateIs(total: u128, issuance: u128, rate: u64)
    requires total > 0 && issuance > 0 && rate * issuance <= total * RATEBASE < rate * issuance + issuance
    ensures RateOf(total, issuance) == rate
  {
    hide Floor;
    FloorBounds(total * RATEBASE, issuance);
    FloorUnique(total * RATEBASE, issuance, Floor(total * RATEBASE, issuance), rate);
  }

  // ----- an unbond between two reports of an era

  /** Two pools of 100 tokens and 200 rTokens of account 7; the era's list of reports still to come. */
  predicate Pair(l: Ledger, a: LinkChunk, issuance: u128, waiting: seq<ShotId>, expected: map<u32, u128>)
  {
    && l.bonded == ["a", "b"] && l.pipes == map["a" := a, "b" := LinkChunk(0, 0, 100)]
    && l.bank.issuance == issuance && Free(l.bank, 7) == issuance && l.receiver == Some(9) && l.lastVoter == Some(0)
    && l.rate == Some(RATEBASE) && l.expected == expected && l.curShots == waiting
  }

  predicate InEra(l: Ledger, waiting: seq<ShotId>)
  {
    && l.era == Some(5) && EraList(l, 5) == waiting && ("a", 5) !in l.unbonds && ("b", 5) !in l.unbonds
    && forall id :: id in waiting ==> id in l.shots
  }

  function FirstBonded(): State { Then(Then(Then(UNUSED, AddPool("a")), AddPool("b")), InitBond("a", 7, 100)) }

  function TwoPools(): State { Then(Then(Then(FirstBonded(), InitBond("b", 7, 100)), SetVoter(0)), SetReceiver(9)) }

  lemma FirstBondedIs()
    ensures var l := FirstBonded().l;
            && l.pools == ["a", "b"] && l.bonded == ["a"] && l.pipes == map["a" := LinkChunk(0, 0, 100)]
            && l.bank == Bank(map[7 := 100], 100) && l.rate == Some(RATEBASE) && l.expected == map[] && l.curShots == []
            && l.era == None && l.unbonds == map[] && FirstBonded().s == UNUSED.s
  {
    Apart();
  }

  lemma Apart()
    ensures "a" != "b" && Shot(5, "a") != Shot(5, "b")
  {
    assert "a"[0] != "b"[0];
  }

  lemma TwoPoolsRest()
    ensures Pair(TwoPools().l, LinkChunk(0, 0, 100), 200, [], map[]) && TwoPools().l.era == None
            && TwoPools().l.unbonds == map[]
    ensures TwoPools().s == UNUSED.s
  {
    hide FirstBonded, Floor;
    FirstBondedIs();
    FirstRate(100);
    Apart();
  }

  lemma TwoPoolsReached()
    ensures Reached(TwoPools())
  {
    hide Then, Reached, UNUSED;
    ReachedUnused();
    var a := Then(UNUSED, AddPool("a"));
    var b := Then(a, AddPool("b"));
    var bondedA := Then(b, InitBond("a", 7, 100));
    var bondedB := Then(bondedA, InitBond("b", 7, 100));
    ReachedThen(UNUSED, AddPool("a"));
    ReachedThen(a, AddPool("b"));
    ReachedThen(b, InitBond("a", 7, 100));
    ReachedThen(bondedA, InitBond("b", 7, 100));
    ReachedThen(bondedB, SetVoter(0));
    ReachedThen(Then(bondedB, SetVoter(0)), SetReceiver(9));
  }

  function Both(): State
  {
    Then(Then(Then(TwoPools(), NewEra(5)), Bonded(Shot(5, "a"), BothBondUnbond)), Bonded(Shot(5, "b"), BothBondUnbond))
  }

  lemma BothStarted(st: State)
    requires Pair(st.l, LinkChunk(0, 0, 100), 200, [], map[]) && st.l.era == None && st.l.unbonds == map[]
    ensures var l, a, b := Then(st, NewEra(5)).l, Shot(5, "a"), Shot(5, "b");
            && Pair(l, LinkChunk(0, 0, 100), 200, [a, b], map[]) && InEra(l, [a, b])
            && l.shots[a] == a.of && l.shots[b] == b.of && Then(st, NewEra(5)).s == st.s
  {
    Apart();
    assert ShotsOf(st.l, ["a", "b"], 5, 0) == [Shot(5, "a"), Shot(5, "b")];
  }

  lemma OneBonded(st: State, pool: PoolId)
    requires pool == "a" || pool == "b"
    requires var a, b := Shot(5, "a"), Shot(5, "b");
             && Pair(st.l, LinkChunk(0, 0, 100), 200, [a, b], map[]) && InEra(st.l, [a, b])
             && st.l.shots[Shot(5, pool)] == Shot(5, pool).of
    ensures var st', a, b := Then(st, Bonded(Shot(5, pool), BothBondUnbond)), Shot(5, "a"), Shot(5, "b");
            && Pair(st'.l, LinkChunk(0, 0, 100), 200, [a, b], map[]) && InEra(st'.l, [a, b]) && st'.s == st.s
            && st'.l.shots == st.l.shots[Shot(5, pool) := Shot(5, pool).of.(state := BondReported)]
  {
    Apart();
    var st' := Then(st, Bonded(Shot(5, pool), BothBondUnbond));
    assert st'.l.pipes == st.l.pipes;
  }

  lemma BothAwait()
    ensures var l, a, b := Both().l, Shot(5, "a"), Shot(5, "b");
            && Pair(l, LinkChunk(0, 0, 100), 200, [a, b], map[]) && InEra(l, [a, b]) && Both().s == UNUSED.s
            && l.shots[a].state == BondReported && l.shots[a] == a.of.(state := BondReported)
            && l.shots[b] == b.of.(state := BondReported)
  {
    hide Then, Pair, UNUSED;
    TwoPoolsRest();
    BothStarted(TwoPools());
    OneBonded(Then(TwoPools(), NewEra(5)), "a");
    Apart();
    OneBonded(Then(Then(TwoPools(), NewEra(5)), Bonded(Shot(5, "a"), BothBondUnbond)), "b");
  }

  const LATE := Unbond(7, "a", 50, 0, UnbondEnv(true, true, true, true))

  lemma FirstReported(st: State)
    requires var a, b := Shot(5, "a"), Shot(5, "b");
             && Pair(st.l, LinkChunk(0, 0, 100), 200, [a, b], map[]) && InEra(st.l, [a, b])
             && st.l.shots[a] == a.of.(state := BondReported) && st.l.shots[b] == b.of.(state := BondReported)
    ensures var st', b := Then(st, Active(Shot(5, "a"), 100, 0)), Shot(5, "b");
            && Pair(st'.l, LinkChunk(0, 0, 100), 200, [b], map[5 := 100]) && InEra(st'.l, [b]) && st'.s == st.s
            && st'.l.shots[b] == b.of.(state := BondReported)
  {
    Apart();
    var a, b := Shot(5, "a"), Shot(5, "b");
    assert Without([a, b], a) == [b];
    assert ActiveReport(st.l, a, 100, 0).1.None?;
    assert Then(st, Active(a, 100, 0)).l.pipes == st.l.pipes;
  }

  lemma UnbondedLate(st: State)
    requires var b := Shot(5, "b");
             && Pair(st.l, LinkChunk(0, 0, 100), 200, [b], map[5 := 100]) && InEra(st.l, [b]) && st.s == UNUSED.s
             && st.l.shots[b] == b.of.(state := BondReported)
    ensures var l', b := Then(st, LATE).l, Shot(5, "b");
            Pair(l', LinkChunk(0, 50, 50), 150, [b], map[5 := 100]) && InEra(l', [b]) && l'.shots == st.l.shots
  {
    hide Floor;
    FloorIsDivision(50 * RATEBASE, RATEBASE);
    NoWrap32(15);
    Apart();
  }

  lemma SecondReported(st: State)
    requires var b := Shot(5, "b");
             && Pair(st.l, LinkChunk(0, 50, 50), 150, [b], map[5 := 100]) && InEra(st.l, [b])
             && st.l.shots[b] == b.of.(state := BondReported)
    ensures var l' := Then(st, Active(Shot(5, "b"), 100, 0)).l;
            && l'.pipes == map["a" := LinkChunk(0, 50, 50), "b" := LinkChunk(0, 0, 100)] && l'.bank.issuance == 150
            && l'.era == Some(5) && EraList(l', 5) == [] && l'.rate == Some(RateOf(200, 150))
  {
    hide RateOf;
    Apart();
    var b := Shot(5, "b");
    assert Without([b], b) == [];
    assert ActiveReport(st.l, b, 100, 0).1.None?;
    assert Then(st, Active(b, 100, 0)).l.pipes == st.l.pipes;
  }

  function AfterLast(): State
  {
    Then(Then(Then(Both(), Active(Shot(5, "a"), 100, 0)), LATE), Active(Shot(5, "b"), 100, 0))
  }

  lemma AfterLastReached()
    ensures Reached(AfterLast())
  {
    hide Then, Reached;
    TwoPoolsReached();
    var a, b := Shot(5, "a"), Shot(5, "b");
    var started := Then(TwoPools(), NewEra(5));
    ReachedThen(TwoPools(), NewEra(5));
    ReachedThen(started, Bonded(a, BothBondUnbond));
    ReachedThen(Then(started, Bonded(a, BothBondUnbond)), Bonded(b, BothBondUnbond));
    ReachedThen(Both(), Active(a, 100, 0));
    ReachedThen(Then(Both(), Active(a, 100, 0)), LATE);
    ReachedThen(Then(Then(Both(), Active(a, 100, 0)), LATE), Active(b, 100, 0));
  }

  lemma PairSum(l: Ledger, x: u128, y: u128)
    requires l.pipes.Keys == {"a", "b"} && l.pipes["a"].active == x && l.pipes["b"].active == y
    ensures TotalActive(l) == x + y
  {
    Apart();
    var none: map<PoolId, nat> := map[];
    SumInsert(none, "a", x);
    SumInsert(none["a" := x], "b", y);
    assert Actives(l) == none["a" := x]["b" := y];
  }

  /** Unbonding 50 tokens between the two reports of an era leaves 150 rTokens valued at 200 tokens
      with 150 behind them; a slack of those 50 is then needed in full. */
  lemma LateUnbondBreaks()
    ensures Reached(AfterLast())
    ensures !PartWay(AfterLast().l) && !Covered(AfterLast().l, 49) && Covered(AfterLast().l, 50)
  {
    hide Then, Reached, Pair, InEra, UNUSED, RateOf, TotalActive;
    AfterLastReached();
    BothAwait();
    FirstReported(Both());
    UnbondedLate(Then(Both(), Active(Shot(5, "a"), 100, 0)));
    SecondReported(Then(Then(Both(), Active(Shot(5, "a"), 100, 0)), LATE));
    RateIs(200, 150, 1_333_333_333_333);
    PairSum(AfterLast().l, 50, 100);
  }

  // ----- a bridged mint whose destination is refused

  const REFUSED: State := Then(Submitted(), UNLISTED)

  /** Executing a record of 50 tokens whose destination is no longer whitelisted leaves 150 rTokens at rate
      one with 100 tokens behind them. */
  lemma RefusedMintBreaks()
    ensures Reached(REFUSED) && !PartWay(REFUSED.l) && !Covered(REFUSED.l, 49) && Covered(REFUSED.l, 50)
    ensures SingleMint.Refused(Submitted(), UNLISTED) && RefusedBy(Submitted(), UNLISTED) == 50
  {
    hide Then, Reached, SingleMint.Refused, TotalActive, Submitted;
    SubmittedReached();
    ReachedThen(Submitted(), UNLISTED);
    SubmittedIs();
    SubmittedLedger();
    UnlistedMints(Submitted());
    OneSum(REFUSED.l, 100);
  }
}

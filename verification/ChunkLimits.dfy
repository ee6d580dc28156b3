/** Why no chunk is lost only while the bonding duration is not shortened: a run from an unused symbol in
    which a user loses a chunk that is still to unlock. */
module ChunkLimits {
  import opened Arithmetic
  import opened Rate
  import opened Tokens
  import opened Ledger
  import opened Series
  import opened Staking
  import opened Reachable
  import opened SolvencyLimits
  import opened UnbondingChunks

  /** One rToken of account 7, without a fee. */
  const ONE := Unbond(7, "a", 1, 0, UnbondEnv(true, true, true, true))

  /** Account 7 may unbond: the era, the duration, its chunks and its rTokens. */
  predicate Ready(st: State, e: u32, d: u32, chunks: seq<Chunk>, left: u128)
  {
    && "a" in st.l.bonded && st.l.era == Some(e) && st.l.receiver == Some(9) && st.l.lastVoter == Some(0)
    && st.l.rate == Some(RATEBASE) && Free(st.l.bank, 7) == left && left <= 100
    && PipeOf(st.l, "a").active == left && PipeOf(st.l, "a").unbond + left == 100
    && st.s.duration == Some(d) && st.s.unbondLimit == 0 && ChunksOf(st.s, 7) == chunks
  }

  predicate Rested(st: State) { st.l.curShots == [] }

  lemma OneUnbond(st: State, e: u32, d: u32, chunks: seq<Chunk>, left: u128)
    requires Ready(st, e, d, chunks, left) && left > 0 && e + d <= U32_MAX && |Pruned(chunks, e)| < MAX_UNLOCKING_CHUNKS
    ensures Ready(Then(st, ONE), e, d, Pruned(chunks, e) + [Chunk("a", e + d, 1)], left - 1) && Apply(st, ONE).1
    ensures Rested(st) ==> Rested(Then(st, ONE))
  {
    hide Pruned, Floor, Wrap32;
    FloorIsDivision(RATEBASE, RATEBASE);
    NoWrap32(e + d);
  }

  function Unbonds(st: State, n: nat): State { if n == 0 then st else Then(Unbonds(st, n - 1), ONE) }

  function Copies(chunk: Chunk, n: nat): seq<Chunk> { seq(n, _ => chunk) }

  lemma {:induction false} ManyUnbonds(st: State, e: u32, d: u32, chunks: seq<Chunk>, left: u128, n: nat)
    requires Ready(st, e, d, chunks, left) && Rested(st) && Reached(st) && e + d <= U32_MAX
    requires n <= left && |chunks| + n <= MAX_UNLOCKING_CHUNKS
    ensures Ready(Unbonds(st, n), e, d, chunks + Copies(Chunk("a", e + d, 1), n), left - n)
    ensures Rested(Unbonds(st, n)) && Reached(Unbonds(st, n))
  {
    hide Then, Ready, Rested, Reached;
    var chunk := Chunk("a", e + d, 1);
    if n == 0 {
      assert chunks + Copies(chunk, 0) == chunks;
    } else {
      ManyUnbonds(st, e, d, chunks, left, n - 1);
      var before := chunks + Copies(chunk, n - 1);
      OneUnbond(Unbonds(st, n - 1), e, d, before, left - (n - 1));
      ReachedThen(Unbonds(st, n - 1), ONE);
      assert before + [chunk] == chunks + Copies(chunk, n);
    }
  }

  lemma SetsDuration(st: State, e: u32, d: u32, chunks: seq<Chunk>, left: u128, d': u32)
    requires Ready(st, e, d, chunks, left) && Rested(st) && Reached(st) && d' > 0
    ensures var st' := Then(st, SetDuration(d')); Ready(st', e, d', chunks, left) && Rested(st') && Reached(st')
  {
    hide Reached, Run;
    ReachedThen(st, SetDuration(d'));
  }

  lemma StartsEra(st: State, d: u32, chunks: seq<Chunk>, left: u128, e: u32)
    requires Ready(st, 0, d, chunks, left) && Rested(st) && Reached(st)
    ensures var st' := Then(st, NewEra(e)); Ready(st', e, d, chunks, left) && Reached(st')
  {
    hide Reached, Run, ShotsOf;
    ReachedThen(st, NewEra(e));
  }

  lemma OnceReady()
    ensures Ready(ONCE, 0, 10, [], 100) && Rested(ONCE) && Reached(ONCE)
  {
    hide Reached, RateOf;
    OnceRests();
    OnceSeries();
  }

  /** Ledger calls leave the series alone. */
  lemma OnceSeries()
    ensures ONCE.s == UNUSED.s
  {
    hide LedgerStep;
  }

  /** A full list: one chunk that unlocks at era 100, then 31 that unlock at era 1. */
  function Full(): State
  {
    Unbonds(Then(Then(Then(ONCE, SetDuration(100)), ONE), SetDuration(1)), 31)
  }

  const LIVE := Chunk("a", 100, 1)

  lemma FullReady()
    ensures Ready(Full(), 0, 1, [LIVE] + Copies(Chunk("a", 1, 1), 31), 68) && Rested(Full()) && Reached(Full())
  {
    hide Then, Ready, Rested, Reached, ONCE;
    OnceReady();
    SetsDuration(ONCE, 0, 10, [], 100, 100);
    var long := Then(ONCE, SetDuration(100));
    OneUnbond(long, 0, 100, [], 100);
    ReachedThen(long, ONE);
    assert [] + [LIVE] == [LIVE];
    SetsDuration(Then(long, ONE), 0, 100, [LIVE], 99, 1);
    ManyUnbonds(Then(Then(long, ONE), SetDuration(1)), 0, 1, [LIVE], 99, 31);
  }

  lemma FullPruned()
    ensures Pruned([LIVE] + Copies(Chunk("a", 1, 1), 31), 50) == Copies(Chunk("a", 1, 1), 15)
  {
    var old1 := Copies(Chunk("a", 1, 1), 31);
    ActiveConcat([LIVE], old1, 50);
    ActiveFacts(old1, 50);
    assert ActiveChunks(old1, 50) == [];
    assert |ActiveChunks([LIVE] + old1, 50)| == 1;
    assert ([LIVE] + old1)[17..] == Copies(Chunk("a", 1, 1), 15);
  }

  /** The duration is shortened from 100 to 1 with the list not yet full; in era 50 the next unbond drops the chunk
      that unlocks in era 100. */
  lemma LiveChunkLost()
    ensures var st := Then(Full(), NewEra(50)); var st' := Then(st, ONE);
            && Reached(st) && Apply(st, ONE).1
            && EraOf(st.l) == 50 <= LIVE.unlockEra && LIVE in ChunksOf(st.s, 7) && LIVE !in ChunksOf(st'.s, 7)
  {
    hide Then, Reached, Full, Apply;
    FullReady();
    var chunks := [LIVE] + Copies(Chunk("a", 1, 1), 31);
    StartsEra(Full(), 1, chunks, 68, 50);
    FullPruned();
    OneUnbond(Then(Full(), NewEra(50)), 50, 1, chunks, 68);
    assert chunks[0] == LIVE;
  }
}

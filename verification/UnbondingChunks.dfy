/** Pruning a user's unbonding chunks: the list stays short and nothing still to unlock is dropped. */
module UnbondingChunks {
  import opened Arithmetic
  import opened Rate
  import opened Sums
  import opened Tokens
  import opened Ledger
  import opened Series
  import opened Staking

  predicate Sorted(chunks: seq<Chunk>)
  {
    forall i, j :: 0 <= i < j < |chunks| ==> chunks[i].unlockEra <= chunks[j].unlockEra
  }

  const DRAINED: nat := MAX_UNLOCKING_CHUNKS - MIN_UNLOCKING_CHUNKS + 1

  predicate AllExpired(chunks: seq<Chunk>, e: u32) { forall i :: 0 <= i < |chunks| ==> chunks[i].unlockEra < e }

  // ----- the filter

  lemma {:induction false} ActiveConcat(a: seq<Chunk>, b: seq<Chunk>, e: u32)
    ensures ActiveChunks(a + b, e) == ActiveChunks(a, e) + ActiveChunks(b, e)
    decreases |a|
  {
    if a == [] {
      assert a + b == b;
    } else {
      ActiveConcat(a[1..], b, e);
      assert (a + b)[1..] == a[1..] + b;
    }
  }

  lemma {:induction false} ActiveMembers(chunks: seq<Chunk>, e: u32)
    ensures |ActiveChunks(chunks, e)| <= |chunks|
    ensures forall k :: k in ActiveChunks(chunks, e) <==> k in chunks && k.unlockEra >= e
    decreases |chunks|
  {
    if chunks != [] {
      ActiveMembers(chunks[1..], e);
      assert chunks == [chunks[0]] + chunks[1..];
    }
  }

  lemma {:induction false} ActiveAll(chunks: seq<Chunk>, e: u32)
    requires forall i :: 0 <= i < |chunks| ==> chunks[i].unlockEra >= e
    ensures ActiveChunks(chunks, e) == chunks
    decreases |chunks|
  {
    if chunks != [] {
      ActiveAll(chunks[1..], e);
    }
  }

  lemma {:induction false} ActiveSorted(chunks: seq<Chunk>, e: u32)
    requires Sorted(chunks)
    ensures Sorted(ActiveChunks(chunks, e))
    decreases |chunks|
  {
    if chunks != [] {
      ActiveSorted(chunks[1..], e);
      ActiveMembers(chunks[1..], e);
      SortedFirst(chunks[0], chunks[1..], ActiveChunks(chunks[1..], e));
    }
  }

  lemma SortedFirst(first: Chunk, rest: seq<Chunk>, kept: seq<Chunk>)
    requires Sorted([first] + rest) && Sorted(kept) && (forall k :: k in kept ==> k in rest)
    ensures Sorted([first] + kept)
  {
    forall k | k in rest
      ensures first.unlockEra <= k.unlockEra
    {
      var i :| 0 <= i < |rest| && rest[i] == k;
      var all := [first] + rest;
      assert all[0].unlockEra <= all[i + 1].unlockEra;
    }
    forall i, j | 0 <= i < j < |[first] + kept|
      ensures ([first] + kept)[i].unlockEra <= ([first] + kept)[j].unlockEra
    {
      assert ([first] + kept)[j] == kept[j - 1];
    }
  }

  lemma ActiveFacts(chunks: seq<Chunk>, e: u32)
    ensures var kept := ActiveChunks(chunks, e);
            && |kept| <= |chunks| && (kept == [] <==> AllExpired(chunks, e))
            && (Sorted(chunks) ==> Sorted(kept))
            && ActiveChunks(kept, e) == kept
  {
    var kept := ActiveChunks(chunks, e);
    ActiveMembers(chunks, e);
    assert forall i :: 0 <= i < |kept| ==> kept[i] in kept;
    ActiveAll(kept, e);
    if Sorted(chunks) {
      ActiveSorted(chunks, e);
    }
    assert kept == [] <==> AllExpired(chunks, e) by {
      hide ActiveChunks;
      assert forall i :: 0 <= i < |chunks| ==> chunks[i] in chunks;
      if kept != [] {
        assert kept[0] in chunks;
      }
    }
  }

  /** In a sorted list everything before a chunk that is not kept has expired. */
  lemma {:induction false} ExpiredFirst(chunks: seq<Chunk>, e: u32, n: nat)
    requires Sorted(chunks) && n + |ActiveChunks(chunks, e)| <= |chunks|
    ensures AllExpired(chunks[..n], e)
    decreases |chunks|
  {
    if n > 0 {
      var rest := chunks[1..];
      if chunks[0].unlockEra >= e {
        ActiveAll(chunks, e);
      } else {
        ExpiredFirst(rest, e, n - 1);
        assert chunks[..n] == [chunks[0]] + rest[..n - 1];
      }
    }
  }

  // ----- pruning

  /** Pruning loses a chunk that is still to unlock exactly if the list is full, few chunks are
      active, and one of them is among the oldest; it never loses one otherwise. */
  lemma PruneLoses(chunks: seq<Chunk>, e: u32)
    requires |chunks| <= MAX_UNLOCKING_CHUNKS
    ensures |Pruned(chunks, e)| <= |chunks|
    ensures ActiveChunks(Pruned(chunks, e), e) == ActiveChunks(chunks, e)
        <==> (|chunks| == MAX_UNLOCKING_CHUNKS && |ActiveChunks(chunks, e)| < MIN_UNLOCKING_CHUNKS ==>
              AllExpired(chunks[..DRAINED], e))
  {
    ActiveFacts(chunks, e);
    if |chunks| == MAX_UNLOCKING_CHUNKS && |ActiveChunks(chunks, e)| < MIN_UNLOCKING_CHUNKS {
      var a, b := chunks[..DRAINED], chunks[DRAINED..];
      ActiveConcat(a, b, e);
      assert a + b == chunks;
      ActiveFacts(a, e);
      assert |ActiveChunks(chunks, e)| == |ActiveChunks(a, e)| + |ActiveChunks(b, e)|;
    }
  }

  lemma PruneKeeps(chunks: seq<Chunk>, e: u32)
    requires |chunks| <= MAX_UNLOCKING_CHUNKS && Sorted(chunks)
    ensures ActiveChunks(Pruned(chunks, e), e) == ActiveChunks(chunks, e) && Sorted(Pruned(chunks, e))
  {
    PruneLoses(chunks, e);
    ActiveFacts(chunks, e);
    if |chunks| == MAX_UNLOCKING_CHUNKS && |ActiveChunks(chunks, e)| < MIN_UNLOCKING_CHUNKS {
      ExpiredFirst(chunks, e, DRAINED);
    }
  }

  // ----- runs

  /** No list is longer than the limit, so draining it stays in range. */
  predicate Short(s: Series) { forall who :: who in s.chunks ==> |s.chunks[who]| <= MAX_UNLOCKING_CHUNKS }

  lemma ShortStep(st: State, c: Call)
    requires Short(st.s)
    ensures Short(Apply(st, c).0.s)
  {
    hide LedgerStep, BondError, TokenToRtoken, RtokenToToken, Pruned, Wrap32, Transfer, Burn, Mint;
  }

  /** In every run; with no condition on eras or durations. */
  lemma {:induction false} ShortInRuns(st: State, calls: seq<Call>)
    requires Short(st.s)
    ensures Short(Run(st, calls).s)
    decreases |calls|
  {
    hide Apply, Short;
    if calls != [] {
      ShortStep(st, calls[0]);
      ShortInRuns(Apply(st, calls[0]).0, calls[1..]);
    }
  }

  /** Where the next chunk will unlock, or later. */
  function Horizon(st: State): nat { EraOf(st.l) + if st.s.duration.Some? then st.s.duration.value else 0 }

  predicate InOrder(st: State)
  {
    && Short(st.s)
    && (forall who :: who in st.s.chunks ==> Sorted(st.s.chunks[who]))
    && (forall who, i :: who in st.s.chunks && 0 <= i < |st.s.chunks[who]| ==>
        st.s.chunks[who][i].unlockEra <= Horizon(st))
  }

  /** The bonding duration is not shortened, and no unlock era wraps around. */
  predicate Steady(st: State, c: Call)
  {
    && (c.SetDuration? && st.s.duration.Some? ==> c.blocks >= st.s.duration.value)
    && (c.Unbond? ==> Horizon(st) <= U32_MAX)
  }

  lemma EraRises(l: Ledger, e: u32)
    ensures EraOf(SetChainEra(l, e).0) >= EraOf(l)
  {
    hide ShotsOf;
  }

  /** An unbond keeps every chunk still to unlock and appends its own, for what the rTokens left after the
      protocol's share are worth. */
  lemma UnbondKeepsChunks(st: State, c: Call)
    requires InOrder(st) && Steady(st, c) && c.Unbond? && Apply(st, c).1
    ensures var before, after := ChunksOf(st.s, c.who), ChunksOf(Apply(st, c).0.s, c.who); var e := EraOf(st.l);
            && after != []
            && var chunk := after[|after| - 1];
               && chunk.pool == c.pool && chunk.unlockEra == Horizon(st)
               && IsRedeemed(st.l.rate, c.value - Min(c.asked, c.value), chunk.value)
               && ActiveChunks(after, e) == ActiveChunks(before, e) + [chunk]
  {
    hide RtokenToToken, Pruned, Wrap32;
    var st', e := Apply(st, c).0, EraOf(st.l);
    NoWrap32(Horizon(st));
    var chunks := ChunksOf(st.s, c.who);
    PruneKeeps(chunks, e);
    var left := c.value - Cut(c.asked, c.value);
    RedeemIsExact(st.l.rate, left);
    ActiveConcat(Pruned(chunks, e), [Chunk(c.pool, Horizon(st), RtokenToToken(st.l.rate, left))], e);
  }

  /** Every chunk of the pruned list was in the list. */
  lemma PrunedFrom(chunks: seq<Chunk>, e: u32)
    requires |chunks| <= MAX_UNLOCKING_CHUNKS
    ensures forall i :: 0 <= i < |Pruned(chunks, e)| ==> Pruned(chunks, e)[i] in chunks
  {
    ActiveMembers(chunks, e);
    forall i | 0 <= i < |Pruned(chunks, e)|
      ensures Pruned(chunks, e)[i] in chunks
    {
      assert Pruned(chunks, e)[i] in Pruned(chunks, e);
    }
  }

  lemma AppendOrdered(chunks: seq<Chunk>, chunk: Chunk, bound: nat)
    requires Sorted(chunks) && (forall i :: 0 <= i < |chunks| ==> chunks[i].unlockEra <= bound)
             && chunk.unlockEra == bound
    ensures Sorted(chunks + [chunk]) && forall i :: 0 <= i < |chunks + [chunk]| ==>
            (chunks + [chunk])[i].unlockEra <= bound
  {
  }

  lemma UnbondInOrder(st: State, c: Call)
    requires InOrder(st) && Steady(st, c) && c.Unbond? && Apply(st, c).1
    ensures InOrder(Apply(st, c).0)
  {
    hide RtokenToToken, Pruned, Wrap32, Sorted;
    var st', e := Apply(st, c).0, EraOf(st.l);
    ShortStep(st, c);
    NoWrap32(Horizon(st));
    var chunks := ChunksOf(st.s, c.who);
    SortedOf(st, c.who);
    PruneKeeps(chunks, e);
    PrunedFrom(chunks, e);
    var pruned := Pruned(chunks, e);
    AppendOrdered(pruned, st'.s.chunks[c.who][|pruned|], Horizon(st));
  }

  lemma SortedOf(st: State, who: Account)
    requires InOrder(st)
    ensures var chunks := ChunksOf(st.s, who);
            Sorted(chunks) && |chunks| <= MAX_UNLOCKING_CHUNKS && forall k :: k in chunks ==> k.unlockEra <= Horizon(st)
  {
  }

  lemma OthersKeepChunks(st: State, c: Call)
    requires !c.Unbond? || !Apply(st, c).1
    ensures Apply(st, c).0.s.chunks == st.s.chunks
  {
    hide LedgerStep, BondError, TokenToRtoken, RtokenToToken, Pruned, Wrap32, Transfer, Burn, Mint;
  }

  lemma EraStays(l: Ledger, c: Call)
    requires !c.NewEra?
    ensures LedgerStep(l, c).0.era == l.era
  {
    hide ReportActive, Deducted, RateOf, TokenToRtoken, Without, EraList;
    if IsActiveReport(c) {
      if LedgerStep(l, c).1.None? {
        ActiveStep(l, c);
        ReportEra(l, c.id, PipeBefore(l, c), ActiveOf(c), ExtraOf(c), c.fee);
      } else {
        FailedReport(l, c);
      }
    }
  }

  lemma ReportEra(l: Ledger, id: ShotId, pipe: LinkChunk, active: u128, extra: u128, fee: u128)
    requires id in l.shots
    ensures ReportActive(l, id, pipe, active, extra, fee).0.era == l.era
  {
  }

  lemma HorizonRises(st: State, c: Call)
    requires Steady(st, c)
    ensures Horizon(Apply(st, c).0) >= Horizon(st)
  {
    hide LedgerStep, LiquidityBond, ExecuteBond, LiquidityUnbond;
    if c.NewEra? {
      NewHorizon(st, c.e);
    } else if c.Submit? || c.Execute? || c.Unbond? {
      SeriesStays(st, c);
    } else {
      EraStays(st.l, c);
    }
  }

  lemma SeriesStays(st: State, c: Call)
    requires c.Submit? || c.Execute? || c.Unbond?
    ensures Apply(st, c).0.l.era == st.l.era && Apply(st, c).0.s.duration == st.s.duration
  {
    hide BondError, TokenToRtoken, RtokenToToken, Pruned, Wrap32, Transfer, Burn, Mint;
  }

  lemma NewHorizon(st: State, e: u32)
    ensures Horizon(Apply(st, NewEra(e)).0) >= Horizon(st)
  {
    hide SetChainEra;
    EraRises(st.l, e);
  }

  lemma StepInOrder(st: State, c: Call)
    requires InOrder(st) && Steady(st, c)
    ensures InOrder(Apply(st, c).0)
  {
    hide Apply, Steady;
    if c.Unbond? && Apply(st, c).1 {
      UnbondInOrder(st, c);
    } else {
      HorizonRises(st, c);
      OthersKeepChunks(st, c);
    }
  }

  predicate SteadyRun(st: State, calls: seq<Call>)
    decreases |calls|
  {
    calls != [] ==> Steady(st, calls[0]) && SteadyRun(Apply(st, calls[0]).0, calls[1..])
  }

  /** In every such run all lists stay sorted, so by UnbondKeepsChunks no unbond drops a chunk still to unlock. */
  lemma {:induction false} InOrderInRuns(st: State, calls: seq<Call>)
    requires InOrder(st) && SteadyRun(st, calls)
    ensures InOrder(Run(st, calls))
    decreases |calls|
  {
    hide Apply, InOrder, Steady;
    if calls != [] {
      StepInOrder(st, calls[0]);
      InOrderInRuns(Apply(st, calls[0]).0, calls[1..]);
    }
  }
}

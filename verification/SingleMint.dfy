/** One mint per transaction: whatever records name it, however they are retried and dispatched. */
module SingleMint {
  import opened Arithmetic
  import opened Rate
  import opened Tokens
  import opened Ledger
  import opened Series
  import opened Staking
  import opened Reachable

  /** The execution reaches the end of its mint: it succeeds, or is refused by the bridge afterwards. */
  predicate Mints(st: State, c: Call)
  {
    c.Execute? && c.pass && c.bond in st.s.records &&
    var e := ExecuteBond(st, c.bond, c.pass, c.env).1; e == None || e == Some(ChainNotWhitelisted)
  }

  predicate Refused(st: State, c: Call) { Mints(st, c) && !Apply(st, c).1 }

  /** These are all the mints of executions: they pay the record at the rate, others leave every balance. */
  lemma MintsExactly(st: State, c: Call)
    requires c.Execute?
    ensures Mints(st, c) ==>
              var record := st.s.records[c.bond];
              var to := if c.bond in st.s.swaps then st.s.swaps[c.bond] else record.bonder;
              Mint(st.l.bank, to, TokenToRtoken(st.l.rate, record.amount)) == Moved(Apply(st, c).0.l.bank)
    ensures !Mints(st, c) ==> Apply(st, c).0.l == st.l
  {
    hide TokenToRtoken;
  }

  /** A mint marks its transaction, and so is final, exactly if its destination is local or whitelisted;
      otherwise nothing is marked and the same execution may mint again. */
  lemma MarkedUnlessRefused(st: State, c: Call)
    requires c.Execute? && Mints(st, c)
    ensures var st', tx := Apply(st, c).0, st.s.records[c.bond].tx;
            && (tx in st'.s.states && st'.s.states[tx] == Success <==> c.bond !in st.s.swaps || c.env.whitelisted)
            && (c.bond in st.s.swaps && !c.env.whitelisted ==>
                  Refused(st, c) && st'.s == st.s && st'.l.pipes == st.l.pipes)
  {
    hide TokenToRtoken;
  }

  // ----- counting over a run

  function One(b: bool): nat { if b then 1 else 0 }

  function MintsOf(st: State, calls: seq<Call>, tx: TxKey): nat
    decreases |calls|
  {
    if calls == [] then 0
    else
      One(Mints(st, calls[0]) && st.s.records[calls[0].bond].tx == tx) + MintsOf(Apply(st, calls[0]).0, calls[1..], tx)
  }

  function RefusalsOf(st: State, calls: seq<Call>, tx: TxKey): nat
    decreases |calls|
  {
    if calls == [] then 0
    else
      One(Refused(st, calls[0]) && st.s.records[calls[0].bond].tx == tx)
      + RefusalsOf(Apply(st, calls[0]).0, calls[1..], tx)
  }

  predicate Succeeded(st: State, tx: TxKey) { tx in st.s.states && st.s.states[tx] == Success }

  lemma StepOnce(st: State, c: Call, tx: TxKey)
    ensures var st' := Apply(st, c).0;
            && (Succeeded(st, tx) ==> Succeeded(st', tx))
            && (Mints(st, c) && st.s.records[c.bond].tx == tx ==>
                  !Succeeded(st, tx) && (Refused(st, c) || Succeeded(st', tx)))
            && (!Succeeded(st, tx) && Succeeded(st', tx) ==>
                  Mints(st, c) && !Refused(st, c) && st.s.records[c.bond].tx == tx)
  {
    hide LedgerStep, TokenToRtoken, RtokenToToken, Pruned, Wrap32;
  }

  /** Success is final; and over any run a transaction is minted for as often as the bridge refuses it
      afterwards, plus once exactly if it came to success in the run. */
  lemma {:induction false} MintedOnce(st: State, calls: seq<Call>, tx: TxKey)
    ensures Succeeded(st, tx) ==> Succeeded(Run(st, calls), tx) && MintsOf(st, calls, tx) == 0
    ensures MintsOf(st, calls, tx)
         == RefusalsOf(st, calls, tx) + One(Succeeded(Run(st, calls), tx) && !Succeeded(st, tx))
    decreases |calls|
  {
    hide Apply, Mints, Refused;
    if calls != [] {
      RefusedMints(st, calls[0]);
      StepOnce(st, calls[0], tx);
      MintedOnce(Apply(st, calls[0]).0, calls[1..], tx);
    }
  }

  lemma RefusedMints(st: State, c: Call)
    ensures Refused(st, c) ==> Mints(st, c)
    ensures Mints(st, c) ==> c.Execute? && c.bond in st.s.records
  {
  }

  /** Destinations of bridged records stay whitelisted. */
  predicate Whitelisted(st: State, calls: seq<Call>)
    decreases |calls|
  {
    calls != [] ==>
      && (calls[0].Execute? && calls[0].bond in st.s.swaps ==> calls[0].env.whitelisted)
      && Whitelisted(Apply(st, calls[0]).0, calls[1..])
  }

  lemma {:induction false} NoRefusals(st: State, calls: seq<Call>, tx: TxKey)
    requires Whitelisted(st, calls)
    ensures RefusalsOf(st, calls, tx) == 0
    decreases |calls|
  {
    hide LedgerStep, TokenToRtoken, RtokenToToken, Pruned, Wrap32;
    if calls != [] {
      NoRefusals(Apply(st, calls[0]).0, calls[1..], tx);
    }
  }

  /** So at most one execution mints for a transaction, in any run. */
  lemma AtMostOneMint(st: State, calls: seq<Call>, tx: TxKey)
    requires Whitelisted(st, calls)
    ensures MintsOf(st, calls, tx) <= 1
    ensures MintsOf(st, calls, tx) == 1 ==> Succeeded(Run(st, calls), tx)
  {
    hide Apply, Mints, Refused;
    NoRefusals(st, calls, tx);
    MintedOnce(st, calls, tx);
  }

  /** Without the whitelist the same execution mints any number of times, as long as the balance fits. */
  lemma RefusedMintsAgain(st: State, c: Call)
    requires c.Execute? && Refused(st, c)
    requires c.bond in st.s.swaps
    requires Free(st.l.bank, st.s.swaps[c.bond]) + 2 * TokenToRtoken(st.l.rate, st.s.records[c.bond].amount) <= U128_MAX
    ensures Refused(Apply(st, c).0, c)
  {
    hide TokenToRtoken;
  }

  // ----- such a state is reached

  const RECORD := BondRecord(7, [], "a", ([1], [2]), 50)

  const BRIDGED := Submit(RECORD, Some(8), BondEnv(true, Valid, true, true, true, true))

  /** Execution of a record whose destination is no longer whitelisted. */
  const UNLISTED := Execute(BondId(RECORD), true, Env(true, true, false, true))

  function Submitted(): State { Then(Then(Then(UNUSED, AddPool("a")), InitBond("a", 7, 100)), BRIDGED) }

  lemma SubmittedIs()
    ensures var st := Submitted();
            && BondId(RECORD) in st.s.records && st.s.records[BondId(RECORD)] == RECORD && BondId(RECORD) in st.s.swaps
            && st.s.swaps[BondId(RECORD)] == 8 && RECORD.tx in st.s.states && st.s.states[RECORD.tx] == Dealing
            && Free(st.l.bank, 8) == 0 && st.l.rate == Some(RATEBASE) && PipeOf(st.l, "a") == LinkChunk(0, 0, 100)
  {
  }

  lemma SubmittedLedger()
    ensures var l := Submitted().l;
            && l.pipes == map["a" := LinkChunk(0, 0, 100)] && l.bank == Bank(map[7 := 100], 100)
            && l.era == None && l.expected == map[]
  {
  }

  lemma SubmittedReached()
    ensures Reached(Submitted())
  {
    hide Then, Reached, UNUSED;
    ReachedUnused();
    ReachedThen(UNUSED, AddPool("a"));
    ReachedThen(Then(UNUSED, AddPool("a")), InitBond("a", 7, 100));
    ReachedThen(Then(Then(UNUSED, AddPool("a")), InitBond("a", 7, 100)), BRIDGED);
  }

  lemma UnlistedMints(st: State)
    requires BondId(RECORD) in st.s.records && st.s.records[BondId(RECORD)] == RECORD && BondId(RECORD) in st.s.swaps
    requires st.s.swaps[BondId(RECORD)] == 8 && RECORD.tx in st.s.states && st.s.states[RECORD.tx] == Dealing
    requires Free(st.l.bank, 8) <= 1000 && st.l.rate == Some(RATEBASE) && PipeOf(st.l, "a") == LinkChunk(0, 0, 100)
    ensures Refused(st, UNLISTED) && Free(Then(st, UNLISTED).l.bank, 8) == Free(st.l.bank, 8) + 50
    ensures var st' := Then(st, UNLISTED); st'.s == st.s && st'.l == st.l.(bank := st'.l.bank)
    ensures Then(st, UNLISTED).l.bank.issuance == SatAdd(st.l.bank.issuance, 50)
  {
    hide Floor;
    FloorIsDivision(50 * RATEBASE, RATEBASE);
  }

  /** From an unused symbol: one bridged record of 50 tokens, executed twice, mints 100 rTokens. */
  lemma TwiceMinted()
    ensures var st := Submitted(); var st' := Then(st, UNLISTED);
            && Reached(st) && Refused(st, UNLISTED) && Refused(st', UNLISTED)
            && Free(st.l.bank, 8) == 0 && Free(Then(st', UNLISTED).l.bank, 8) == 100
  {
    hide Then, Reached, Submitted, Refused;
    SubmittedReached();
    SubmittedIs();
    UnlistedMints(Submitted());
    UnlistedMints(Then(Submitted(), UNLISTED));
  }
}

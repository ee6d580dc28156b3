/** bridge/common proposals: relayers of a chain vote on (nonce, call); a proposal that
    reaches the threshold is dispatched, and stays open to be retried while dispatch fails. */
module BridgeVotes {
  import opened Arithmetic
  import opened Sums
  import opened Tokens

  /** Source chain, deposit nonce and call. */
  type Proposal = (nat, nat, nat)

  datatype Status = Active | Passed | Expired | Executed

  datatype Ballot = Ballot(voted: seq<Account>, status: Status, expiry: nat)

  datatype State = State(thresholds: map<nat, u32>, votes: map<Proposal, Ballot>)

  datatype BridgeError = Refused | ProposalAlreadyCompleted | RelayerAlreadyVoted | ProposalExpired
    | ProposalDoesNotExist | DispatchFailed

  /** Each step's effect: the state, the error, whether a dispatch was attempted, and whether it succeeded. */
  datatype Effect = Effect(st: State, error: Option<BridgeError>, attempted: bool, succeeded: bool)

  function ThresholdOf(s: State, chain: nat): u32 { if chain in s.thresholds then s.thresholds[chain] else 0 }

  predicate Completed(b: Ballot) { b.status == Executed || b.status == Expired }

  /** `derivate` */
  function Derive(b: Ballot, threshold: u32, now: nat): Ballot
  {
    if Completed(b) then b
    else if b.expiry <= now then b.(status := Expired)
    else if |b.voted| >= threshold then b.(status := Passed)
    else b
  }

  function Opened(s: State, p: Proposal, now: nat, lifetime: nat): Ballot
  {
    if p in s.votes then s.votes[p] else Ballot([], Active, now + lifetime)
  }

  /** `commit_vote`. Expiry is stored even though the call fails. */
  function CommitVote(s: State, who: Account, p: Proposal, now: nat, lifetime: nat): (State, Option<BridgeError>)
  {
    var b := Opened(s, p, now, lifetime);
    if Completed(b) then (s, Some(ProposalAlreadyCompleted))
    else if who in b.voted then (s, Some(RelayerAlreadyVoted))
    else if b.expiry <= now then (s.(votes := s.votes[p := b.(status := Expired)]), Some(ProposalExpired))
    else (s.(votes := s.votes[p := Derive(b.(voted := b.voted + [who]), ThresholdOf(s, p.0), now)]), None)
  }

  /** `acknowledge_proposal`; `allowed` stands for the relayer, whitelist and resource checks,
      `dispatches` for the result of the dispatched call. */
  function Acknowledge(s: State, who: Account, p: Proposal, now: nat, lifetime: nat, allowed: bool,
                       dispatches: bool): Effect
  {
    if !allowed then Effect(s, Some(Refused), false, false)
    else
      var (s', e) := CommitVote(s, who, p, now, lifetime);
      if e.Some? then Effect(s', e, false, false)
      else if p !in s'.votes then Effect(s', Some(ProposalDoesNotExist), false, false)
      else if s'.votes[p].status != Passed then Effect(s', None, false, false)
      else if !dispatches then Effect(s', Some(DispatchFailed), true, false)
      else Effect(s'.(votes := s'.votes[p := s'.votes[p].(status := Executed)]), None, true, true)
  }

  // ----- runs with history

  datatype Call =
    | Vote(who: Account, p: Proposal, now: nat, lifetime: nat, allowed: bool, dispatches: bool)
    | SetThreshold(chain: nat, threshold: u32)

  /** Successful dispatches of a proposal, dispatches after expiry, and the threshold in force when it first passed. */
  datatype Record = Record(executed: nat, late: nat, passedAt: Option<u32>)

  datatype World = World(st: State, history: map<Proposal, Record>)

  function RecordOf(w: World, p: Proposal): Record { if p in w.history then w.history[p] else Record(0, 0, None) }

  predicate Has(s: State, p: Proposal, status: Status) { p in s.votes && s.votes[p].status == status }

  function Step(w: World, c: Call): World
  {
    match c
    case SetThreshold(chain, t) => World(w.st.(thresholds := w.st.thresholds[chain := t]), w.history)
    case Vote(who, p, now, lifetime, allowed, dispatches) =>
      var r := RecordOf(w, p);
      var e := Acknowledge(w.st, who, p, now, lifetime, allowed, dispatches);
      var committed := CommitVote(w.st, who, p, now, lifetime).0;
      var passedAt := if r.passedAt.None? && allowed && Has(committed, p, Passed) then Some(ThresholdOf(w.st, p.0))
        else r.passedAt;
      World(e.st, w.history[p := Record(
        r.executed + (if e.succeeded then 1 else 0),
        r.late + (if e.attempted && Has(w.st, p, Expired) then 1 else 0),
        passedAt)])
  }

  function Run(w: World, calls: seq<Call>): World
    decreases |calls|
  {
    if calls == [] then w else Run(Step(w, calls[0]), calls[1..])
  }

  /** What the history of one proposal says about its stored ballot. */
  predicate ProposalOk(w: World, p: Proposal)
  {
    var r := RecordOf(w, p);
    && r.late == 0
    && (r.executed == if Has(w.st, p, Executed) then 1 else 0)
    && (p in w.st.votes ==> NoDup(w.st.votes[p].voted))
    && (Has(w.st, p, Passed) || Has(w.st, p, Executed) ==> r.passedAt.Some?)
    && (r.passedAt.Some? ==> p in w.st.votes && |w.st.votes[p].voted| >= r.passedAt.value)
  }

  ghost predicate AllOk(w: World) { forall p :: ProposalOk(w, p) }

  lemma VoteOk(w: World, c: Call)
    requires c.Vote? && ProposalOk(w, c.p)
    ensures ProposalOk(Step(w, c), c.p)
  {
    var b := Opened(w.st, c.p, c.now, c.lifetime);
    if c.who !in b.voted {
      AppendNoDup(b.voted, c.who);
    }
  }

  lemma StepOk(w: World, c: Call)
    requires AllOk(w)
    ensures AllOk(Step(w, c))
  {
    forall p
      ensures ProposalOk(Step(w, c), p)
    {
      assert ProposalOk(w, p);
      if c.Vote? && c.p == p {
        VoteOk(w, c);
      }
    }
  }

  /** For every proposal and every run, with thresholds changing freely and dispatches failing
      and being retried: it is dispatched successfully at most once, never dispatched once expired,
      and only after as many distinct relayers voted as the threshold asked for when it first
      passed; executed and expired are final. */
  lemma {:induction false} ProposalsInRuns(w: World, calls: seq<Call>, p: Proposal)
    requires AllOk(w)
    ensures AllOk(Run(w, calls)) && RecordOf(Run(w, calls), p).executed <= 1
    ensures Has(w.st, p, Executed) ==> Has(Run(w, calls).st, p, Executed)
    ensures Has(w.st, p, Expired) ==> Has(Run(w, calls).st, p, Expired) && RecordOf(Run(w, calls), p).executed == 0
    ensures RecordOf(w, p).passedAt.Some? ==> RecordOf(Run(w, calls), p).passedAt == RecordOf(w, p).passedAt
    decreases |calls|
  {
    hide AllOk;
    AllGives(w, p);
    if calls != [] {
      StepOk(w, calls[0]);
      ProposalsInRuns(Step(w, calls[0]), calls[1..], p);
    }
  }

  lemma AllGives(w: World, p: Proposal)
    requires AllOk(w)
    ensures ProposalOk(w, p)
  {
  }

  lemma GenesisOk(thresholds: map<nat, u32>)
    ensures AllOk(World(State(thresholds, map[]), map[]))
  {
  }

  // ----- one vote

  /** Only the ballot of p is different. */
  ghost predicate OnlyBallot(s: State, s': State, p: Proposal)
  {
    p in s'.votes && s' == s.(votes := s.votes[p := s'.votes[p]])
  }

  /** A new vote in time on an open proposal counts, passes the proposal as soon as there are as many as the threshold
      asks for, and dispatches a passed one at once; whether that succeeds decides if it stays open. */
  lemma VotePasses(s: State, who: Account, p: Proposal, now: nat, lifetime: nat, dispatches: bool)
    requires var b := Opened(s, p, now, lifetime); !Completed(b) && who !in b.voted && now < b.expiry
    ensures var b, o := Opened(s, p, now, lifetime), Acknowledge(s, who, p, now, lifetime, true, dispatches);
            && OnlyBallot(s, o.st, p)
            && var b' := o.st.votes[p];
               && b'.voted == b.voted + [who] && b'.expiry == b.expiry
               && (o.attempted <==> |b'.voted| >= ThresholdOf(s, p.0) || b.status == Passed)
               && (b'.status == Active <==> !o.attempted) && (b'.status == Passed <==> o.attempted && !dispatches)
               && (b'.status == Executed <==> o.attempted && dispatches) && (o.succeeded <==> b'.status == Executed)
               && o.error == if o.attempted && !dispatches then Some(DispatchFailed) else None
  {
  }

  /** A new vote too late on an open proposal fails, and expires the proposal: no call ever dispatches it. */
  lemma LateVoteExpires(w: World, c: Call, calls: seq<Call>, later: Call)
    requires AllOk(w) && c.Vote? && c.allowed && later.Vote? && later.p == c.p
    requires var b := Opened(w.st, c.p, c.now, c.lifetime); !Completed(b) && c.who !in b.voted && b.expiry <= c.now
    ensures var s, b, o := w.st, Opened(w.st, c.p, c.now, c.lifetime), Acknowledge(
              w.st, c.who, c.p, c.now, c.lifetime, c.allowed, c.dispatches);
            && OnlyBallot(s, o.st, c.p) && o.st.votes[c.p] == b.(status := Expired)
            && o.error == Some(ProposalExpired) && !o.attempted
            && Step(w, c).st == o.st
            && !Acknowledge(Run(Step(w, c), calls).st, later.who, later.p, later.now, later.lifetime, later.allowed,
                            later.dispatches).attempted
  {
    hide AllOk, Run;
    StepOk(w, c);
    ProposalsInRuns(Step(w, c), calls, c.p);
  }

  /** A call that is not allowed, a vote on a completed proposal and a repeated vote change nothing, also where
      a passed proposal still waits for its dispatch. */
  lemma VoteRefused(s: State, who: Account, p: Proposal, now: nat, lifetime: nat, allowed: bool, dispatches: bool)
    requires !allowed || (p in s.votes && (Completed(s.votes[p]) || who in s.votes[p].voted))
    ensures var o := Acknowledge(s, who, p, now, lifetime, allowed, dispatches);
            o.st == s && o.error.Some? && !o.attempted && !o.succeeded
  {
  }

  /** What every call keeps, for every proposal: its history and its stored ballot agree. */
  ghost predicate Kept(w: World, w': World) { AllOk(w) ==> AllOk(w') }

  lemma CallKeeps(w: World, c: Call)
    ensures Kept(w, Step(w, c))
  {
    hide AllOk, Step;
    if AllOk(w) {
      StepOk(w, c);
    }
  }

  class BridgeCommon {
    var thresholds: map<nat, u32>
    var votes: map<Proposal, Ballot>
    /** Dispatches of each proposal, and the threshold it first passed. */
    ghost var history: map<Proposal, Record>

    function View(): State
      reads this
    {
      State(thresholds, votes)
    }

    /** The storage with its history. */
    ghost function Whole(): World
      reads this
    {
      World(View(), history)
    }

    constructor (thresholds: map<nat, u32>)
      ensures Whole() == World(State(thresholds, map[]), map[]) && AllOk(Whole())
    {
      GenesisOk(thresholds);
      history := map[];
      this.thresholds, this.votes := thresholds, map[];
    }

    method Commit(who: Account, p: Proposal, now: nat, lifetime: nat) returns (error: Option<BridgeError>)
      modifies this`votes
      ensures (View(), error) == CommitVote(old(View()), who, p, now, lifetime)
    {
      var b := if p in votes then votes[p] else Ballot([], Active, now + lifetime);
      if b.status == Executed || b.status == Expired { return Some(ProposalAlreadyCompleted); }
      if who in b.voted { return Some(RelayerAlreadyVoted); }
      if b.expiry <= now {
        b := b.(status := Expired);
        votes := votes[p := b];
        return Some(ProposalExpired);
      }
      b := b.(voted := b.voted + [who]);
      var threshold := if p.0 in thresholds then thresholds[p.0] else 0;
      if |b.voted| >= threshold {
        b := b.(status := Passed);
      }
      votes := votes[p := b];
      return None;
    }

    method AcknowledgeProposal(who: Account, p: Proposal, now: nat, lifetime: nat, allowed: bool, dispatches: bool)
      returns (error: Option<BridgeError>, attempted: bool, succeeded: bool)
      modifies this
      ensures Effect(View(), error, attempted, succeeded)
           == Acknowledge(old(View()), who, p, now, lifetime, allowed, dispatches)
      ensures Whole() == Step(old(Whole()), Vote(who, p, now, lifetime, allowed, dispatches))
      ensures Kept(old(Whole()), Whole())
    {
      hide Kept;
      CallKeeps(Whole(), Vote(who, p, now, lifetime, allowed, dispatches));
      history := Step(Whole(), Vote(who, p, now, lifetime, allowed, dispatches)).history;
      if !allowed { return Some(Refused), false, false; }
      error := Commit(who, p, now, lifetime);
      if error.Some? { return error, false, false; }
      if p !in votes { return Some(ProposalDoesNotExist), false, false; }
      if votes[p].status != Passed { return None, false, false; }
      if !dispatches { return Some(DispatchFailed), true, false; }
      votes := votes[p := votes[p].(status := Executed)];
      return None, true, true;
    }
  }
}

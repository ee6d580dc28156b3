/** The outcome of a proposal under a fixed relayer set does not depend on the
    order of the votes: it is approved exactly when enough relayers favour it. */
module VoteOutcome {
  import opened Arithmetic
  import opened Sums
  import opened Tokens
  import opened Votes

  /** Each relayer's first vote on p, which is the one that counts. */
  function FirstVotes(m: map<Account, bool>, calls: seq<Call>, relayers: set<Account>, p: Proposal): map<Account, bool>
    decreases |calls|
  {
    if calls == [] then m
    else FirstVotes(WithVote(m, calls[0], relayers, p), calls[1..], relayers, p)
  }

  function WithVote(m: map<Account, bool>, c: Call, relayers: set<Account>, p: Proposal): map<Account, bool>
  {
    if c.Vote? && c.p == p && c.who in relayers && c.who !in m then m[c.who := c.inFavour] else m
  }

  function InFavour(m: map<Account, bool>): set<Account> { set w | w in m && m[w] }

  function Against(m: map<Account, bool>): set<Account> { set w | w in m && !m[w] }

  /** Votes only, and every vote on p comes before `deadline`, which no lifetime cuts short. */
  predicate Timely(calls: seq<Call>, p: Proposal, deadline: nat)
  {
    forall i :: 0 <= i < |calls| ==>
      && calls[i].Vote?
      && (calls[i].p == p ==> calls[i].now < deadline <= calls[i].now + calls[i].lifetime)
  }

  /** The stored status is the one the tallies call for. With u32::MAX relayers the sum that rejects
      wraps around, and nothing is ever rejected. */
  predicate StatusOk(b: Ballot, t: nat, n: nat)
  {
    match b.status
    case Initiated => |b.votesFor| < t && (n < U32_MAX ==> |b.votesAgainst| + t <= n)
    case Approved => |b.votesFor| >= t
    case Rejected => |b.votesAgainst| + t > n && n < U32_MAX
    case Expired => false
  }

  ghost predicate Records(s: State, p: Proposal, m: map<Account, bool>, deadline: nat)
  {
    && m.Keys <= s.relayers
    && (p !in s.votes <==> m == map[])
    && (p in s.votes ==>
          var b := s.votes[p];
          && DistinctVoters(b) && b.expiry >= deadline
          && Elements(b.votesFor) == InFavour(m) && Elements(b.votesAgainst) == Against(m)
          && StatusOk(b, s.threshold, |s.relayers|))
  }

  ghost predicate Fair(s: State) { s.count == |s.relayers| && 1 <= s.threshold <= s.count }

  lemma BallotSizes(b: Ballot, m: map<Account, bool>)
    requires DistinctVoters(b) && Elements(b.votesFor) == InFavour(m) && Elements(b.votesAgainst) == Against(m)
    ensures |b.votesFor| == |InFavour(m)| && |b.votesAgainst| == |Against(m)|
    ensures |InFavour(m)| + |Against(m)| == |m.Keys|
    ensures forall w :: HasVoted(b, w) <==> w in m
  {
    var f, a := b.votesFor, b.votesAgainst;
    assert f == (f + a)[..|f|] && a == (f + a)[|f|..];
    NoDupSize(f);
    NoDupSize(a);
    assert InFavour(m) + Against(m) == m.Keys;
    assert InFavour(m) !! Against(m);
    forall w
      ensures HasVoted(b, w) <==> w in m
    {
      assert w in f <==> w in Elements(f);
      assert w in a <==> w in Elements(a);
    }
  }

  /** `derivate` settles the status the tallies call for. */
  lemma DeriveOk(b: Ballot, t: u32, n: u32)
    requires b.status == Initiated && 1 <= t <= n && |b.votesAgainst| <= n
    requires n < U32_MAX ==> |b.votesAgainst| + t <= n + 1
    ensures StatusOk(Derive(b, t, n), t, n)
  {
    hide Wrap32;
    NoWrap32(|b.votesAgainst|);
    if |b.votesAgainst| + t <= U32_MAX {
      NoWrap32(|b.votesAgainst| + t);
    } else {
      WrapsOnce(|b.votesAgainst| + t);
    }
  }

  lemma WrapsOnce(a: nat)
    requires U32_MAX < a <= 2 * U32_MAX
    ensures Wrap32(a) == a - U32_MAX - 1
  {
  }

  lemma MarkedElements(b: Ballot, who: Account, inFavour: bool, m: map<Account, bool>)
    requires Elements(b.votesFor) == InFavour(m) && Elements(b.votesAgainst) == Against(m) && who !in m
    ensures var b', m' := Marked(b, who, inFavour), m[who := inFavour];
            Elements(b'.votesFor) == InFavour(m') && Elements(b'.votesAgainst) == Against(m')
  {
    var f, a := b.votesFor, b.votesAgainst;
    if inFavour {
      assert Elements(f + [who]) == Elements(f) + {who};
    } else {
      assert Elements(a + [who]) == Elements(a) + {who};
    }
  }

  lemma LaterOk(b: Ballot, b': Ballot, t: nat, n: nat)
    requires StatusOk(b, t, n) && b.status != Initiated && b'.status == b.status
    requires |b'.votesFor| >= |b.votesFor| && |b'.votesAgainst| >= |b.votesAgainst|
    ensures StatusOk(b', t, n)
  {
  }

  /** A first vote by a relayer. */
  lemma CountsVote(s: State, c: Call, p: Proposal, m: map<Account, bool>, deadline: nat)
    requires Fair(s) && Records(s, p, m, deadline)
    requires c.Vote? && c.p == p && c.who in s.relayers && c.who !in m && c.now < deadline <= c.now + c.lifetime
    ensures Records(Step(s, c), p, m[c.who := c.inFavour], deadline)
  {
    hide Elements, InFavour, Against;
    var b, m' := Opened(s, p, c.now, c.lifetime), m[c.who := c.inFavour];
    if p !in s.votes {
      EmptyTally(b, m);
    }
    BallotSizes(b, m);
    var b' := Marked(b, c.who, c.inFavour);
    MarkedDistinct(b, c.who, c.inFavour);
    MarkedElements(b, c.who, c.inFavour, m);
    BallotSizes(b', m');
    SubsetSize(m'.Keys, s.relayers);
    if b.status == Initiated {
      DeriveOk(b', s.threshold, s.count);
      SameDistinct(b', Derive(b', s.threshold, s.count));
    } else {
      LaterOk(b, b', s.threshold, |s.relayers|);
    }
  }

  lemma EmptyTally(b: Ballot, m: map<Account, bool>)
    requires b.votesFor == [] && b.votesAgainst == [] && m == map[]
    ensures DistinctVoters(b) && Elements(b.votesFor) == InFavour(m) && Elements(b.votesAgainst) == Against(m)
  {
  }

  lemma StepRecords(s: State, c: Call, p: Proposal, m: map<Account, bool>, deadline: nat)
    requires Fair(s) && Records(s, p, m, deadline)
    requires c.Vote? && (c.p == p ==> c.now < deadline <= c.now + c.lifetime)
    ensures Fair(Step(s, c)) && Step(s, c).relayers == s.relayers && Step(s, c).threshold == s.threshold
    ensures Records(Step(s, c), p, WithVote(m, c, s.relayers, p), deadline)
  {
    hide Elements, InFavour, Against, Derive;
    CommitKeepsRelayers(s, c);
    if c.p == p && c.who in s.relayers {
      if c.who in m {
        BallotSizes(s.votes[p], m);
      } else {
        CountsVote(s, c, p, m, deadline);
      }
    }
  }

  lemma {:induction false} RunRecords(s: State, calls: seq<Call>, p: Proposal, m: map<Account, bool>, deadline: nat)
    requires Fair(s) && Records(s, p, m, deadline) && Timely(calls, p, deadline)
    ensures Run(s, calls).relayers == s.relayers && Run(s, calls).threshold == s.threshold
    ensures Records(Run(s, calls), p, FirstVotes(m, calls, s.relayers, p), deadline)
    decreases |calls|
  {
    hide Records, Fair, Step, WithVote;
    if calls != [] {
      assert calls[0].Vote?;
      StepRecords(s, calls[0], p, m, deadline);
      assert Timely(calls[1..], p, deadline);
      RunRecords(Step(s, calls[0]), calls[1..], p, WithVote(m, calls[0], s.relayers, p), deadline);
    }
  }

  /** With N fixed relayers and a threshold t in 1..N, once all of them have voted the proposal is approved
      if and only if at least t first votes favoured it, in every order; otherwise it is rejected, unless
      N is u32::MAX: then it stays undecided. */
  lemma VoteDecides(s: State, calls: seq<Call>, p: Proposal, deadline: nat)
    requires Fair(s) && p !in s.votes && Timely(calls, p, deadline)
    requires FirstVotes(map[], calls, s.relayers, p).Keys == s.relayers
    ensures var m := FirstVotes(map[], calls, s.relayers, p);
            && p in Run(s, calls).votes
            && Run(s, calls).votes[p].status ==
               if |InFavour(m)| >= s.threshold then Approved else if s.count < U32_MAX then Rejected else Initiated
  {
    hide Run, FirstVotes, Timely;
    var m := FirstVotes(map[], calls, s.relayers, p);
    RunRecords(s, calls, p, map[], deadline);
    assert m.Keys != {};
    assert m != map[];
    BallotSizes(Run(s, calls).votes[p], m);
  }
}

/** rtoken/votes and rtoken/relayers for one symbol: relayers vote for or against a
    proposal, and every call on a decided proposal dispatches it. */
module Votes {
  import opened Arithmetic
  import opened Sums
  import opened Tokens

  /** Proposal id and call. */
  type Proposal = (nat, nat)

  datatype Status = Initiated | Approved | Rejected | Expired

  datatype Ballot = Ballot(votesFor: seq<Account>, votesAgainst: seq<Account>, status: Status, expiry: nat)

  datatype State = State(
    relayers: set<Account>, count: u32, threshold: u32, votes: map<Proposal, Ballot>, lastVoter: Option<Account>)

  datatype VoteError = MustBeRelayer | ProposalExpired | InvalidThreshold | RelayerAlreadyExists | RelayerInvalid
    | ProposalDoesNotExist

  /** `derivate` */
  function Derive(b: Ballot, threshold: u32, total: u32): Ballot
  {
    if |b.votesFor| >= threshold then b.(status := Approved)
    else if total >= threshold && Wrap32(Wrap32(|b.votesAgainst|) + threshold) > total then b.(status := Rejected)
    else b
  }

  predicate HasVoted(b: Ballot, who: Account) { who in b.votesFor || who in b.votesAgainst }

  function Opened(s: State, p: Proposal, now: nat, lifetime: nat): Ballot
  {
    if p in s.votes then s.votes[p] else Ballot([], [], Initiated, now + lifetime)
  }

  function Marked(b: Ballot, who: Account, inFavour: bool): Ballot
  {
    if inFavour then b.(votesFor := b.votesFor + [who]) else b.(votesAgainst := b.votesAgainst + [who])
  }

  /** `commit_vote`. An expired proposal is stored as such before the call fails. */
  function CommitVote(s: State, who: Account, p: Proposal, inFavour: bool, now: nat, lifetime: nat)
    : (State, Option<VoteError>)
  {
    var b := Opened(s, p, now, lifetime);
    if HasVoted(b, who) then (s, None)
    else
      var b' := Marked(b, who, inFavour);
      if b'.status != Initiated then (s.(votes := s.votes[p := b']), None)
      else if b'.expiry <= now then (s.(votes := s.votes[p := b'.(status := Expired)]), Some(ProposalExpired))
      else (s.(votes := s.votes[p := Derive(b', s.threshold, s.count)]), None)
  }

  /** `acknowledge_proposal`: the state, the error, and whether the call was dispatched. The relayer is
      stored as the last voter before anything can fail. */
  function Acknowledge(s: State, who: Account, p: Proposal, inFavour: bool, now: nat, lifetime: nat)
    : (State, Option<VoteError>, bool)
  {
    if who !in s.relayers then (s, Some(MustBeRelayer), false)
    else
      var (s', e) := CommitVote(s.(lastVoter := Some(who)), who, p, inFavour, now, lifetime);
      if e.Some? then (s', e, false)
      else if p !in s'.votes then (s', Some(ProposalDoesNotExist), false)
      else (s', None, s'.votes[p].status == Approved || s'.votes[p].status == Rejected)
  }

  function SetThreshold(s: State, threshold: u32): (State, Option<VoteError>)
  {
    if threshold == 0 then (s, Some(InvalidThreshold)) else (s.(threshold := threshold), None)
  }

  function AddRelayer(s: State, who: Account): (State, Option<VoteError>)
  {
    if who in s.relayers then (s, Some(RelayerAlreadyExists))
    else (s.(relayers := s.relayers + {who}, count := Wrap32(s.count + 1)), None)
  }

  function RemoveRelayer(s: State, who: Account): (State, Option<VoteError>)
  {
    if who !in s.relayers then (s, Some(RelayerInvalid))
    else (s.(relayers := s.relayers - {who}, count := Wrap32(s.count + U32_MAX)), None)
  }

  // ----- runs

  datatype Call =
    | Vote(who: Account, p: Proposal, inFavour: bool, now: nat, lifetime: nat)
    | Threshold(threshold: u32)
    | Enter(who: Account)
    | Leave(who: Account)

  function Step(s: State, c: Call): State
  {
    match c
    case Vote(who, p, inFavour, now, lifetime) => Acknowledge(s, who, p, inFavour, now, lifetime).0
    case Threshold(threshold) => SetThreshold(s, threshold).0
    case Enter(who) => AddRelayer(s, who).0
    case Leave(who) => RemoveRelayer(s, who).0
  }

  function Run(s: State, calls: seq<Call>): State
    decreases |calls|
  {
    if calls == [] then s else Run(Step(s, calls[0]), calls[1..])
  }

  // ----- any run: voters are distinct, a decision is final

  predicate DistinctVoters(b: Ballot) { NoDup(b.votesFor + b.votesAgainst) }

  lemma MarkedDistinct(b: Ballot, who: Account, inFavour: bool)
    requires DistinctVoters(b) && !HasVoted(b, who)
    ensures DistinctVoters(Marked(b, who, inFavour))
  {
    var f, a := b.votesFor, b.votesAgainst;
    forall i | 0 <= i < |f|
      ensures f[i] != who
    {
    }
    forall i | 0 <= i < |a|
      ensures a[i] != who
    {
    }
    forall i, j | 0 <= i < j < |f|
      ensures f[i] != f[j]
    {
      assert (f + a)[i] == f[i] && (f + a)[j] == f[j];
    }
    forall i, j | 0 <= i < j < |a|
      ensures a[i] != a[j]
    {
      assert (f + a)[|f| + i] == a[i] && (f + a)[|f| + j] == a[j];
    }
    forall i, j | 0 <= i < |f| && 0 <= j < |a|
      ensures f[i] != a[j]
    {
      assert (f + a)[i] == f[i] && (f + a)[|f| + j] == a[j];
    }
  }

  predicate VotersOk(s: State) { forall p :: p in s.votes ==> DistinctVoters(s.votes[p]) }

  lemma StepVotersOk(s: State, c: Call)
    requires VotersOk(s)
    ensures VotersOk(Step(s, c))
  {
    hide DistinctVoters, Wrap32;
    if c.Vote? {
      var b := Opened(s, c.p, c.now, c.lifetime);
      assert DistinctVoters(b) by {
        if c.p !in s.votes {
          EmptyDistinct(b);
        }
      }
      if !HasVoted(b, c.who) {
        var b' := Marked(b, c.who, c.inFavour);
        MarkedDistinct(b, c.who, c.inFavour);
        SameDistinct(b', Derive(b', s.threshold, s.count));
        SameDistinct(b', b'.(status := Expired));
      }
    }
  }

  lemma EmptyDistinct(b: Ballot)
    requires b.votesFor == [] && b.votesAgainst == []
    ensures DistinctVoters(b)
  {
  }

  lemma SameDistinct(b: Ballot, b': Ballot)
    requires DistinctVoters(b) && b'.votesFor == b.votesFor && b'.votesAgainst == b.votesAgainst
    ensures DistinctVoters(b')
  {
  }

  /** In any run, with relayers and thresholds changing freely, no account votes twice on a
      proposal, on either side, and a decided status never changes. */
  lemma {:induction false} DecisionsInRuns(s: State, calls: seq<Call>, p: Proposal)
    requires VotersOk(s)
    ensures VotersOk(Run(s, calls))
    ensures p in s.votes && s.votes[p].status != Initiated ==>
              p in Run(s, calls).votes && Run(s, calls).votes[p].status == s.votes[p].status
    decreases |calls|
  {
    hide VotersOk, Derive;
    if calls != [] {
      StepVotersOk(s, calls[0]);
      DecisionsInRuns(Step(s, calls[0]), calls[1..], p);
    }
  }

  predicate Decided(s: State, p: Proposal)
  {
    p in s.votes && (s.votes[p].status == Approved || s.votes[p].status == Rejected)
  }

  /** A decided proposal, rejected ones included, is dispatched by every later call of a relayer,
      whatever happened in between; and a dispatch always leaves a decided proposal behind. */
  lemma DispatchesForGood(s: State, calls: seq<Call>, c: Call)
    requires VotersOk(s) && c.Vote? && c.who in Run(s, calls).relayers
    ensures var dispatched := Acknowledge(Run(s, calls), c.who, c.p, c.inFavour, c.now, c.lifetime).2;
            (Decided(s, c.p) ==> dispatched) && (dispatched ==> Decided(Step(Run(s, calls), c), c.p))
  {
    hide Run, VotersOk, Derive;
    DecisionsInRuns(s, calls, c.p);
  }

  // ----- one vote

  /** Only the ballot of p and the last voter are different. */
  ghost predicate OnlyBallot(s: State, s': State, p: Proposal, who: Account)
  {
    p in s'.votes && s' == s.(votes := s.votes[p := s'.votes[p]], lastVoter := Some(who))
  }

  /** A first vote in time on an open proposal counts on its side, and settles the proposal at once if it can:
      approved exactly if enough are in favour, otherwise rejected exactly if too few can still come to be; a
      settled proposal is dispatched by the same call. */
  lemma VoteSettles(s: State, who: Account, p: Proposal, inFavour: bool, now: nat, lifetime: nat)
    requires who in s.relayers
    requires var b := Opened(s, p, now, lifetime); !HasVoted(b, who) && b.status == Initiated && now < b.expiry
    ensures var b, (s', e, dispatched) :=
              Opened(s, p, now, lifetime), Acknowledge(s, who, p, inFavour, now, lifetime);
            && e == None && OnlyBallot(s, s', p, who)
            && var b' := s'.votes[p];
               && b'.votesFor == b.votesFor + (if inFavour then [who] else [])
               && b'.votesAgainst == b.votesAgainst + (if inFavour then [] else [who]) && b'.expiry == b.expiry
               && b'.status != Expired && (dispatched <==> b'.status != Initiated)
               && (b'.status == Approved <==> |b'.votesFor| >= s.threshold)
               && (|b'.votesAgainst| + s.threshold <= U32_MAX ==>
                     (b'.status == Rejected <==>
                        && |b'.votesFor| < s.threshold <= s.count
                        && |b'.votesAgainst| + s.threshold > s.count))
  {
    hide Wrap32;
    var a: nat := |Marked(Opened(s, p, now, lifetime), who, inFavour).votesAgainst|;
    if a + s.threshold <= U32_MAX {
      NoWrap32(a);
      NoWrap32(a + s.threshold);
    }
  }

  /** A first vote too late on an open proposal fails, and expires the proposal: no call ever dispatches it. */
  lemma LateVoteExpires(s: State, who: Account, p: Proposal, inFavour: bool, now: nat, lifetime: nat,
                        calls: seq<Call>, c: Call)
    requires VotersOk(s) && who in s.relayers && c.Vote? && c.p == p
    requires var b := Opened(s, p, now, lifetime); !HasVoted(b, who) && b.status == Initiated && b.expiry <= now
    ensures var b, (s', e, dispatched) :=
              Opened(s, p, now, lifetime), Acknowledge(s, who, p, inFavour, now, lifetime);
            && e == Some(ProposalExpired) && !dispatched && OnlyBallot(s, s', p, who)
            && s'.votes[p] == Marked(b, who, inFavour).(status := Expired)
            && !Acknowledge(Run(s', calls), c.who, p, c.inFavour, c.now, c.lifetime).2
  {
    hide VotersOk, Derive, Run;
    var s' := Acknowledge(s, who, p, inFavour, now, lifetime).0;
    StepVotersOk(s, Vote(who, p, inFavour, now, lifetime));
    DecisionsInRuns(s', calls, p);
    ExpiredStays(Run(s', calls), c);
  }

  lemma ExpiredStays(s: State, c: Call)
    requires c.Vote? && c.p in s.votes && s.votes[c.p].status == Expired
    ensures !Acknowledge(s, c.who, c.p, c.inFavour, c.now, c.lifetime).2
  {
  }

  /** Any other vote of a relayer decides nothing: a repeated one changes no ballot, one on a settled proposal is
      only recorded, and either dispatches exactly what is decided. */
  lemma VoteAfter(s: State, who: Account, p: Proposal, inFavour: bool, now: nat, lifetime: nat)
    requires who in s.relayers && p in s.votes && (HasVoted(s.votes[p], who) || s.votes[p].status != Initiated)
    ensures var (s', e, dispatched) := Acknowledge(s, who, p, inFavour, now, lifetime);
            && e == None && OnlyBallot(s, s', p, who) && (dispatched <==> Decided(s, p))
            && s'.votes[p] == if HasVoted(s.votes[p], who) then s.votes[p] else Marked(s.votes[p], who, inFavour)
  {
    assert s.votes == s.votes[p := s.votes[p]];
  }

  /** The relayer counter is the size of the relayer set, in runs that do not reach u32::MAX relayers. */
  predicate NeverFull(s: State, calls: seq<Call>)
    decreases |calls|
  {
    calls != [] ==> (calls[0].Enter? ==> s.count < U32_MAX) && NeverFull(Step(s, calls[0]), calls[1..])
  }

  lemma WrapDown(n: u32)
    requires n > 0
    ensures Wrap32(n + U32_MAX) == n - 1
  {
  }

  lemma StepCounts(s: State, c: Call)
    requires s.count == |s.relayers| && (c.Enter? ==> s.count < U32_MAX)
    ensures Step(s, c).count == |Step(s, c).relayers|
  {
    hide CommitVote, Wrap32;
    match c {
      case Vote(_, _, _, _, _) => CommitKeepsRelayers(s, c);
      case Enter(who) => NoWrap32(s.count + 1);
      case Leave(who) =>
        if who in s.relayers {
          assert s.relayers == (s.relayers - {who}) + {who};
          WrapDown(s.count);
        }
      case Threshold(_) =>
    }
  }

  lemma {:induction false} CountInRuns(s: State, calls: seq<Call>)
    requires s.count == |s.relayers| && NeverFull(s, calls)
    ensures Run(s, calls).count == |Run(s, calls).relayers|
    decreases |calls|
  {
    hide Step;
    if calls != [] {
      StepCounts(s, calls[0]);
      CountInRuns(Step(s, calls[0]), calls[1..]);
    }
  }

  lemma CommitKeepsRelayers(s: State, c: Call)
    requires c.Vote?
    ensures Step(s, c).relayers == s.relayers && Step(s, c).count == s.count && Step(s, c).threshold == s.threshold
  {
  }

  // ----- the pallets as they run

  /** What every call keeps: distinct voters and decisions, and, below u32::MAX relayers, their count. */
  ghost predicate Kept(s: State, c: Call, s': State)
  {
    && (VotersOk(s) ==> VotersOk(s'))
    && (forall p :: p in s.votes && s.votes[p].status != Initiated ==>
          p in s'.votes && s'.votes[p].status == s.votes[p].status)
    && (s.count == |s.relayers| && (c.Enter? ==> s.count < U32_MAX) ==> s'.count == |s'.relayers|)
  }

  lemma CallKeeps(s: State, c: Call)
    ensures Kept(s, c, Step(s, c))
  {
    hide VotersOk, Derive;
    if VotersOk(s) {
      StepVotersOk(s, c);
    }
    if s.count == |s.relayers| && (c.Enter? ==> s.count < U32_MAX) {
      StepCounts(s, c);
    }
  }

  class RTokenVotes {
    var relayers: set<Account>
    var count: u32
    var threshold: u32
    var votes: map<Proposal, Ballot>
    var lastVoter: Option<Account>

    function View(): State
      reads this
    {
      State(relayers, count, threshold, votes, lastVoter)
    }

    constructor ()
      ensures View() == State({}, 0, 0, map[], None)
    {
      relayers, count, threshold, votes, lastVoter := {}, 0, 0, map[], None;
    }

    method SetRelayerThreshold(t: u32) returns (error: Option<VoteError>)
      modifies this
      ensures (View(), error) == SetThreshold(old(View()), t)
      ensures Kept(old(View()), Threshold(t), View())
    {
      hide Kept;
      CallKeeps(View(), Threshold(t));
      if t == 0 { return Some(InvalidThreshold); }
      threshold := t;
      return None;
    }

    method AddToRelayers(who: Account) returns (error: Option<VoteError>)
      modifies this
      ensures (View(), error) == AddRelayer(old(View()), who)
      ensures Kept(old(View()), Enter(who), View())
    {
      hide Kept;
      CallKeeps(View(), Enter(who));
      if who in relayers { return Some(RelayerAlreadyExists); }
      relayers := relayers + {who};
      var n: nat := count;
      count := Wrap32(n + 1);
      return None;
    }

    method RemoveFromRelayers(who: Account) returns (error: Option<VoteError>)
      modifies this
      ensures (View(), error) == RemoveRelayer(old(View()), who)
      ensures Kept(old(View()), Leave(who), View())
    {
      hide Kept;
      CallKeeps(View(), Leave(who));
      if who !in relayers { return Some(RelayerInvalid); }
      relayers := relayers - {who};
      var n: nat := count;
      count := Wrap32(n + U32_MAX);
      return None;
    }

    method Commit(who: Account, p: Proposal, inFavour: bool, now: nat, lifetime: nat) returns (error: Option<VoteError>)
      modifies this`votes
      ensures (View(), error) == CommitVote(old(View()), who, p, inFavour, now, lifetime)
    {
      var b := if p in votes then votes[p] else Ballot([], [], Initiated, now + lifetime);
      if who in b.votesFor || who in b.votesAgainst { return None; }
      if inFavour {
        b := b.(votesFor := b.votesFor + [who]);
      } else {
        b := b.(votesAgainst := b.votesAgainst + [who]);
      }
      if b.status != Initiated {
        votes := votes[p := b];
        return None;
      }
      if b.expiry <= now {
        b := b.(status := Expired);
        votes := votes[p := b];
        return Some(ProposalExpired);
      }
      if |b.votesFor| >= threshold {
        b := b.(status := Approved);
      } else if count >= threshold && Wrap32(Wrap32(|b.votesAgainst|) + threshold) > count {
        b := b.(status := Rejected);
      }
      votes := votes[p := b];
      return None;
    }

    method AcknowledgeProposal(who: Account, p: Proposal, inFavour: bool, now: nat, lifetime: nat)
      returns (error: Option<VoteError>, dispatched: bool)
      modifies this
      ensures (View(), error, dispatched) == Acknowledge(old(View()), who, p, inFavour, now, lifetime)
      ensures Kept(old(View()), Vote(who, p, inFavour, now, lifetime), View())
    {
      hide Wrap32, Kept;
      CallKeeps(View(), Vote(who, p, inFavour, now, lifetime));
      if who !in relayers { return Some(MustBeRelayer), false; }
      lastVoter := Some(who);
      error := Commit(who, p, inFavour, now, lifetime);
      if error.Some? { return error, false; }
      if p !in votes { return Some(ProposalDoesNotExist), false; }
      return None, votes[p].status == Approved || votes[p].status == Rejected;
    }
  }
}

/** claims/rclaim as the pallet runs it: records updated field by field, a scanning
    loop over cycles and a batch loop over public keys. */
module RewardPallet {
  import opened Arithmetic
  import opened Rate
  import opened Vesting
  import opened RewardActs
  import opened RewardActProofs

  /** What every call keeps: the budget of every cycle, and the order of the acts with the cursor. */
  ghost predicate Kept(s: State, c: Call, now: u32, s': State)
  {
    && (BudgetsOk(s) && Admissible(s, c) ==> BudgetsOk(s'))
    && (Sorted(s) && CursorOk(s, now) && KeepsWindows(s, c) ==> Sorted(s') && CursorOk(s', now))
  }

  lemma CallKeeps(s: State, c: Call, now: u32)
    ensures Kept(s, c, now, Step(s, c, now))
  {
    hide BudgetsOk, Sorted, CursorOk, Step, Admissible, KeepsWindows;
    if BudgetsOk(s) && Admissible(s, c) {
      StepKeepsBudgets(s, c, now);
    }
    if Sorted(s) && CursorOk(s, now) && KeepsWindows(s, c) {
      StepKeepsOrder(s, c, now);
    }
  }

  class RClaim {
    var acts: map<u32, Act>
    var latest: u32
    var current: u32
    var claims: map<ClaimKey, ClaimInfo>
    var counts: map<(Holder, u32), u64>
    var userActs: map<Holder, seq<u32>>

    function View(): State
      reads this
    {
      State(acts, latest, current, claims, counts, userActs)
    }

    constructor ()
      ensures View() == State(map[], 0, 0, map[], map[], map[])
    {
      acts, latest, current, claims, counts, userActs := map[], 0, 0, map[], map[], map[];
    }

    method AddRewardAct(p: ActParams, now: u32) returns (error: Option<ActError>)
      modifies this
      ensures (View(), error) == AddAct(old(View()), p, now)
      ensures Kept(old(View()), AddCall(p), now, View())
    {
      hide Kept;
      CallKeeps(View(), AddCall(p), now);
      error := ParamError(p);
      if error.Some? { return; }
      if p.end <= now { return Some(EndPassed); }
      var cycle: nat := latest;
      if cycle > 0 {
        if latest !in acts { return Some(HasNoAct); }
        if p.begin <= acts[latest].end { return Some(BeginNotAfterLast); }
      }
      latest := Wrap32(cycle + 1);
      acts := acts[latest := Act(p.begin, p.end, latest, p.rate, p.total, p.total, p.userLimit, p.locked, 0, 0)];
      return None;
    }

    method UpdateRewardAct(cycle: u32, p: ActParams, now: u32) returns (error: Option<ActError>)
      modifies this
      ensures (View(), error) == UpdateAct(old(View()), cycle, p, now)
      ensures Kept(old(View()), UpdateCall(cycle, p), now, View())
    {
      hide Kept;
      CallKeeps(View(), UpdateCall(cycle, p), now);
      error := ParamError(p);
      if error.Some? { return; }
      if cycle !in acts { return Some(HasNoAct); }
      var act := acts[cycle];
      if p.end <= now { return Some(EndPassed); }
      if p.total > act.total {
        act := act.(left := SatAdd(act.left, SatSub(p.total, act.total)));
      } else {
        act := act.(left := SatSub(act.left, SatSub(act.total, p.total)));
      }
      act := act.(begin := p.begin, end := p.end, cycle := cycle, rate := p.rate);
      act := act.(total := p.total, userLimit := p.userLimit, locked := p.locked);
      acts := acts[cycle := act];
      return None;
    }

    /** `update_act_current_cycle` */
    method AdvanceCursor(now: u32)
      modifies this`current
      ensures View() == Advance(old(View()), now)
    {
      if latest == 0 || latest == current {
        return;
      }
      var i: nat := current + 1;
      while i <= latest
        invariant 1 <= i && current == old(current)
        invariant Scan(acts, i, latest, now) == Scan(acts, old(current) + 1, latest, now)
        decreases latest + 1 - i
      {
        if i in acts {
          var act := acts[i];
          if now < act.begin {
            return;
          }
          if act.end >= now {
            current := i;
            return;
          }
        }
        i := i + 1;
      }
    }

    /** The cursor handling shared by single and batched mints. */
    method LocateAct(now: u32) returns (found: bool)
      modifies this`current
      ensures var (s, act) := Locate(old(View()), now);
              View() == s && found == act.Some? && (found ==> current in acts)
    {
      hide Scan;
      if current == 0 {
        AdvanceCursor(now);
        if current == 0 { return false; }
      }
      if current !in acts { return false; }
      if acts[current].end < now {
        AdvanceCursor(now);
        if current !in acts { return false; }
      }
      return acts[current].begin <= now <= acts[current].end;
    }

    /** Takes one reward out of `act` and records the claim; the act itself is stored by the caller. */
    method Grant(act: Act, cycle: u32, who: Holder, mint: u128, native: u128, now: u32) returns (spent: Act)
      modifies this`claims, this`userActs, this`counts
      ensures spent == Spend(act, mint, native)
      ensures var key := (who, cycle, Count(old(View()), who, cycle));
              claims == old(claims)[key := ClaimInfo(mint, native, RewardFor(act, native), 0, now, now)]
      ensures userActs == Enlisted(old(View()), who, cycle)
      ensures counts == old(counts)[(who, cycle) := (Count(old(View()), who, cycle) + 1) % (U64_MAX + 1)]
    {
      hide MulRational;
      var reward := match MulRational(native, act.rate, RATEBASE)
        case Some(v) => v
        case None => 0;
      if reward > act.left {
        reward := act.left;
      }
      if act.userLimit > 0 && reward > act.userLimit {
        reward := act.userLimit;
      }
      spent := act.(left := SatSub(act.left, reward));
      spent := spent.(rtokens := SatAdd(act.rtokens, mint), natives := SatAdd(act.natives, native));
      var n: nat := if (who, cycle) in counts then counts[(who, cycle)] else 0;
      claims := claims[(who, cycle, n) := ClaimInfo(mint, native, reward, 0, now, now)];
      var mine := if who in userActs then userActs[who] else [];
      if cycle !in mine {
        userActs := userActs[who := mine + [cycle]];
      }
      counts := counts[(who, cycle) := (n + 1) % (U64_MAX + 1)];
    }

    /** `update_claim_info` */
    method RecordMint(who: Holder, mint: u128, native: u128, now: u32)
      modifies this
      ensures View() == UpdateClaimInfo(old(View()), who, mint, native, now)
      ensures Kept(old(View()), MintCall(who, mint, native), now, View())
    {
      hide Advance, RewardFor, Kept;
      CallKeeps(View(), MintCall(who, mint, native), now);
      var found := LocateAct(now);
      if !found || acts[current].left == 0 {
        return;
      }
      var act := Grant(acts[current], current, who, mint, native, now);
      acts := acts[current := act];
    }

    /** `update_reth_claim_info` */
    method RecordBatch(entries: seq<Entry>, now: u32) returns (error: Option<ActError>)
      modifies this
      ensures (View(), error) == UpdateBatch(old(View()), entries, now)
      ensures Kept(old(View()), BatchCall(entries), now, View())
    {
      hide Advance, RewardFor, Kept;
      CallKeeps(View(), BatchCall(entries), now);
      if |entries| >= 200 { return Some(PubkeyAndValueNumberErr); }
      var found := LocateAct(now);
      if !found || acts[current].left == 0 { return None; }
      var j := 0;
      while j < |entries|
        invariant 0 <= j <= |entries|
        invariant FirstError(entries[j..]) == FirstError(entries)
      {
        error := EntryError(entries[j]);
        if error.Some? { return; }
        assert entries[j..][1..] == entries[j + 1..];
        j := j + 1;
      }
      GrantAll(entries, now);
      error := None;
    }

    /** The update loop of the batch: it works on a copy of the act and stores it once at the end. */
    method GrantAll(entries: seq<Entry>, now: u32)
      requires current in acts
      modifies this
      ensures View() == AllocateAll(old(View()), old(current), entries, now)
    {
      hide RewardFor, Spend, Enlisted, Count;
      var cycle, act, k := current, acts[current], 0;
      ghost var done := View();
      assert done == View().(acts := acts[cycle := act]);
      assert entries[k..] == entries;
      while k < |entries| && act.left != 0
        invariant 0 <= k <= |entries| && acts == old(acts) && latest == old(latest) && current == old(current) == cycle
        invariant done == View().(acts := acts[cycle := act])
        invariant AllocateAll(old(View()), cycle, entries, now) == AllocateAll(done, cycle, entries[k..], now)
      {
        ghost var before := done;
        act := GrantNext(act, before, entries[k], now);
        done := Allocate(before, cycle, entries[k].who, entries[k].mint, entries[k].native, now);
        assert entries[k..][1..] == entries[k + 1..];
        k := k + 1;
      }
      acts := acts[cycle := act];
    }

    /** One iteration: `before` is the state that storing `act` now would give. */
    method GrantNext(act: Act, ghost before: State, e: Entry, now: u32) returns (spent: Act)
      requires current in acts && before == View().(acts := acts[current := act])
      modifies this`claims, this`userActs, this`counts
      ensures View().(acts := acts[current := spent]) == Allocate(before, current, e.who, e.mint, e.native, now)
    {
      hide RewardFor, Spend;
      spent := Grant(act, current, e.who, e.mint, e.native, now);
      assert acts[current := act][current := spent] == acts[current := spent];
    }

    /** `claim_rtoken_reward` */
    method ClaimRtokenReward(who: Holder, cycle: u32, index: u64, now: u32, funded: bool, payable: bool)
      returns (error: Option<ActError>, paid: u128)
      modifies this
      ensures (View(), error, paid) == ClaimReward(old(View()), who, cycle, index, now, funded, payable)
      ensures Kept(old(View()), ClaimCall(who, cycle, index, funded, payable), now, View())
    {
      hide MulRational, Kept;
      CallKeeps(View(), ClaimCall(who, cycle, index, funded, payable), now);
      if (who, cycle, index) !in claims { return Some(HasNoClaimInfo), 0; }
      var info := claims[(who, cycle, index)];
      if cycle !in acts { return Some(HasNoAct), 0; }
      if !funded { return Some(NoFundAddress), 0; }
      var amount := Claimable(info, acts[cycle].locked, now);
      if amount == 0 { return Some(ValueZero), 0; }
      if !payable { return Some(TransferFailed), 0; }
      info := info.(claimed := SatAdd(info.claimed, amount));
      info := info.(latest := now);
      claims := claims[(who, cycle, index) := info];
      return None, amount;
    }
  }
}

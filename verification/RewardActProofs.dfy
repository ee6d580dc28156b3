/** What the reward acts promise: the cursor is a search of the whole list, and
    a cycle's budget is exactly split between what is left and what was allocated. */
module RewardActProofs {
  import opened Arithmetic
  import opened Sums
  import opened Vesting
  import opened RewardActs

  // ----- the cursor is a search

  /** Cycles 1..latest, each window after the one before. */
  predicate Sorted(s: State)
  {
    && (forall i: u32 :: i in s.acts <==> 1 <= i <= s.latest)
    && (forall i: u32 :: i in s.acts ==> s.acts[i].begin <= s.acts[i].end)
    && (forall i: u32, j: u32 :: i in s.acts && j in s.acts && i < j ==> s.acts[i].end < s.acts[j].begin)
  }

  /** The cursor points at an act that had begun by block `now`, or nowhere. */
  predicate CursorOk(s: State, now: u32)
  {
    s.current <= s.latest && (s.current > 0 ==> s.current in s.acts && s.acts[s.current].begin <= now)
  }

  predicate IsRunning(s: State, i: u32, now: u32) { i in s.acts && Running(s.acts[i], now) }

  lemma {:induction false} ScanIsSearch(s: State, i: nat, now: u32)
    requires Sorted(s) && 1 <= i
    ensures match Scan(s.acts, i, s.latest, now)
            case Some(j) => i <= j && IsRunning(s, j, now)
            case None => forall j: u32 :: i <= j ==> !IsRunning(s, j, now)
    decreases s.latest + 1 - i
  {
    if i <= s.latest && s.acts[i].end < now {
      ScanIsSearch(s, i + 1, now);
    }
  }

  lemma RunningUnique(s: State, i: u32, j: u32, now: u32)
    requires Sorted(s) && IsRunning(s, i, now) && IsRunning(s, j, now)
    ensures i == j
  {
  }

  /** Acts before the cursor are over. */
  lemma BehindCursor(s: State, j: u32, now: u32)
    requires Sorted(s) && CursorOk(s, now) && j < s.current
    ensures !IsRunning(s, j, now)
  {
  }

  lemma AdvanceOk(s: State, now: u32)
    requires Sorted(s) && CursorOk(s, now)
    requires s.current > 0 ==> s.acts[s.current].end < now
    ensures var s' := Advance(s, now);
            && s' == s.(current := s'.current) && CursorOk(s', now)
            && (s'.current == s.current ==> forall j: u32 :: !IsRunning(s, j, now))
            && (s'.current != s.current ==> s'.current > 0 && IsRunning(s, s'.current, now))
  {
    ScanIsSearch(s, s.current + 1, now);
    forall j: u32
      ensures Scan(s.acts, s.current + 1, s.latest, now).None? ==> !IsRunning(s, j, now)
    {
      if j < s.current {
        BehindCursor(s, j, now);
      }
    }
  }

  /** The incremental cursor selects exactly the act whose window contains the block,
      as a search of the whole list would. */
  lemma LocateIsSearch(s: State, now: u32)
    requires Sorted(s) && CursorOk(s, now)
    ensures var (s', found) := Locate(s, now);
            && s' == s.(current := s'.current) && CursorOk(s', now) && Sorted(s')
            && (found.Some? ==> s'.current == found.value && s'.current > 0)
            && (found.None? ==> s'.current == s.current)
            && forall i: u32 :: found == Some(i) <==> IsRunning(s, i, now)
  {
    var s1 := if s.current == 0 then Advance(s, now) else s;
    if s.current == 0 || s.acts[s.current].end < now {
      AdvanceOk(s, now);
    }
    var (s', found) := Locate(s, now);
    if found.Some? {
      forall i: u32 | IsRunning(s, i, now)
        ensures i == found.value
      {
        RunningUnique(s, i, found.value, now);
      }
    }
  }

  // ----- budgets

  function Granted(claims: map<ClaimKey, ClaimInfo>, cycle: u32): map<ClaimKey, nat>
  {
    map k | k in claims && k.1 == cycle :: claims[k].reward
  }

  /** Everything allocated from a cycle. */
  ghost function Allocated(s: State, cycle: u32): nat { Sum(Granted(s.claims, cycle)) }

  ghost predicate InBudget(s: State, cycle: u32)
    requires cycle in s.acts
  {
    s.acts[cycle].left + Allocated(s, cycle) == s.acts[cycle].total
  }

  predicate KeysOk(s: State)
  {
    && (forall i: u32 :: i in s.acts ==> 1 <= i <= s.latest)
    && (forall k :: k in s.claims ==> k.1 in s.acts && k.2 < Count(s, k.0, k.1))
  }

  ghost predicate BudgetsOk(s: State) { KeysOk(s) && forall c: u32 :: c in s.acts ==> InBudget(s, c) }

  lemma GrantedAfter(claims: map<ClaimKey, ClaimInfo>, key: ClaimKey, info: ClaimInfo, cycle: u32)
    ensures Granted(claims[key := info], cycle) ==
            if key.1 == cycle then Granted(claims, cycle)[key := info.reward] else Granted(claims, cycle)
  {
  }

  lemma RewardWithinLeft(act: Act, native: u128)
    ensures RewardFor(act, native) <= act.left
    ensures act.userLimit > 0 ==> RewardFor(act, native) <= act.userLimit
  {
  }

  lemma AllocateKeepsKeys(s: State, cycle: u32, who: Holder, mint: u128, native: u128, now: u32)
    requires KeysOk(s) && cycle in s.acts && Count(s, who, cycle) < U64_MAX
    ensures KeysOk(Allocate(s, cycle, who, mint, native, now))
    ensures (who, cycle, Count(s, who, cycle)) !in s.claims
  {
    hide RewardFor;
    var s' := Allocate(s, cycle, who, mint, native, now);
    forall k | k in s'.claims
      ensures k.1 in s'.acts && k.2 < Count(s', k.0, k.1)
    {
      if k != (who, cycle, Count(s, who, cycle)) {
        assert k in s.claims;
      }
    }
  }

  /** An allocation moves its reward from `left` to the claims, and touches no other cycle. */
  lemma AllocateKeeps(s: State, cycle: u32, who: Holder, mint: u128, native: u128, now: u32)
    requires BudgetsOk(s) && cycle in s.acts && Count(s, who, cycle) < U64_MAX
    ensures BudgetsOk(Allocate(s, cycle, who, mint, native, now))
  {
    hide RewardFor, Sum, KeysOk;
    var s' := Allocate(s, cycle, who, mint, native, now);
    var key := (who, cycle, Count(s, who, cycle));
    RewardWithinLeft(s.acts[cycle], native);
    AllocateKeepsKeys(s, cycle, who, mint, native, now);
    SumInsert(Granted(s.claims, cycle), key, RewardFor(s.acts[cycle], native));
    forall c: u32 | c in s'.acts
      ensures InBudget(s', c)
    {
      assert InBudget(s, c);
      GrantedAfter(s.claims, key, s'.claims[key], c);
    }
  }

  lemma {:induction false} AllocateAllKeeps(s: State, cycle: u32, entries: seq<Entry>, now: u32)
    requires BudgetsOk(s) && cycle in s.acts && CountsBelow(s, U64_MAX - |entries|)
    ensures BudgetsOk(AllocateAll(s, cycle, entries, now))
    decreases |entries|
  {
    hide BudgetsOk, Allocate;
    if entries != [] && s.acts[cycle].left > 0 {
      var e := entries[0];
      AllocateKeeps(s, cycle, e.who, e.mint, e.native, now);
      AllocateCounts(s, cycle, e.who, e.mint, e.native, now, U64_MAX - |entries|);
      AllocateAllKeeps(Allocate(s, cycle, e.who, e.mint, e.native, now), cycle, entries[1..], now);
    }
  }

  /** No user has made more than `bound` mints in any cycle. */
  ghost predicate CountsBelow(s: State, bound: int) { forall who: Holder, cycle: u32 :: Count(s, who, cycle) <= bound }

  lemma AllocateCounts(s: State, cycle: u32, who: Holder, mint: u128, native: u128, now: u32, bound: int)
    requires cycle in s.acts && CountsBelow(s, bound) && bound < U64_MAX
    ensures cycle in Allocate(s, cycle, who, mint, native, now).acts
    ensures CountsBelow(Allocate(s, cycle, who, mint, native, now), bound + 1)
  {
    hide RewardFor;
    var s' := Allocate(s, cycle, who, mint, native, now);
    forall other: Holder, c: u32
      ensures Count(s', other, c) <= bound + 1
    {
      assert Count(s, other, c) <= bound;
    }
  }

  /** A claim changes no reward, so no budget. */
  lemma ClaimKeeps(s: State, who: Holder, cycle: u32, index: u64, now: u32, funded: bool, payable: bool)
    requires BudgetsOk(s)
    ensures BudgetsOk(ClaimReward(s, who, cycle, index, now, funded, payable).0)
  {
    hide Sum, Claimable, Granted;
    var s' := ClaimReward(s, who, cycle, index, now, funded, payable).0;
    forall c: u32 | c in s'.acts
      ensures InBudget(s', c)
    {
      assert InBudget(s, c);
      if s' != s {
        SameGranted(s.claims, (who, cycle, index), s'.claims[(who, cycle, index)], c);
      }
    }
  }

  lemma SameGranted(claims: map<ClaimKey, ClaimInfo>, key: ClaimKey, info: ClaimInfo, cycle: u32)
    requires key in claims && info.reward == claims[key].reward
    ensures Granted(claims[key := info], cycle) == Granted(claims, cycle)
  {
  }

  lemma AddEffect(s: State, p: ActParams, now: u32)
    requires s.latest < U32_MAX
    ensures var (s', e) := AddAct(s, p, now);
            && (e.Some? ==> s' == s)
            && (e.None? ==>
                  var act := Act(p.begin, p.end, s.latest + 1, p.rate, p.total, p.total, p.userLimit, p.locked, 0, 0);
                  && s' == s.(latest := s.latest + 1, acts := s.acts[s.latest + 1 := act])
                  && p.begin < p.end && (s.latest > 0 ==> s.latest in s.acts && s.acts[s.latest].end < p.begin))
  {
    hide Wrap32;
    NoWrap32(s.latest + 1);
  }

  lemma AddKeeps(s: State, p: ActParams, now: u32)
    requires BudgetsOk(s) && s.latest < U32_MAX
    ensures BudgetsOk(AddAct(s, p, now).0)
  {
    hide AddAct, Sum, KeysOk;
    var (s', e) := AddAct(s, p, now);
    AddEffect(s, p, now);
    if e.None? {
      AddKeepsKeys(s, s', s'.acts[s'.latest]);
      forall c: u32 | c in s'.acts
        ensures InBudget(s', c)
      {
        if c == s'.latest {
          NoneGranted(s, c);
        } else {
          assert InBudget(s, c);
        }
      }
    }
  }

  lemma AddKeepsKeys(s: State, s': State, act: Act)
    requires KeysOk(s) && s.latest < U32_MAX
    requires s' == s.(latest := s.latest + 1, acts := s.acts[s.latest + 1 := act])
    ensures KeysOk(s') && s'.latest !in s.acts
  {
    forall k | k in s'.claims
      ensures k.1 in s'.acts && k.2 < Count(s', k.0, k.1)
    {
      assert k in s.claims;
    }
  }

  lemma NoneGranted(s: State, c: u32)
    requires KeysOk(s) && c !in s.acts
    ensures Allocated(s, c) == 0
  {
    assert Granted(s.claims, c) == map[];
  }

  /** A root update keeps the cycle's budget split exactly when it does not cut the
      total below what is already allocated. */
  lemma UpdateBudget(s: State, cycle: u32, p: ActParams, now: u32)
    requires cycle in s.acts && InBudget(s, cycle)
    ensures var (s', e) := UpdateAct(s, cycle, p, now);
            e.None? ==> cycle in s'.acts && (InBudget(s', cycle) <==> p.total >= Allocated(s, cycle))
  {
    hide Sum;
  }

  lemma UpdateKeeps(s: State, cycle: u32, p: ActParams, now: u32)
    requires BudgetsOk(s) && p.total >= Allocated(s, cycle)
    ensures BudgetsOk(UpdateAct(s, cycle, p, now).0)
  {
    hide Sum;
    var (s', e) := UpdateAct(s, cycle, p, now);
    if e.None? {
      UpdateBudget(s, cycle, p, now);
      forall c: u32 | c in s'.acts
        ensures InBudget(s', c)
      {
        assert InBudget(s, c);
      }
    }
  }

  lemma LocateKeeps(s: State, now: u32)
    ensures var s' := Locate(s, now).0; s' == s.(current := s'.current)
    ensures Locate(s, now).1.Some? ==> Locate(s, now).0.current in s.acts
  {
  }

  lemma CursorFree(s: State, current: u32)
    requires BudgetsOk(s)
    ensures BudgetsOk(s.(current := current))
  {
    hide Sum;
    var s' := s.(current := current);
    forall c: u32 | c in s'.acts
      ensures InBudget(s', c)
    {
      assert InBudget(s, c);
    }
  }

  // ----- runs

  datatype Call =
    | AddCall(p: ActParams)
    | UpdateCall(cycle: u32, p: ActParams)
    | MintCall(who: Holder, mint: u128, native: u128)
    | BatchCall(entries: seq<Entry>)
    | ClaimCall(who: Holder, cycle: u32, index: u64, funded: bool, payable: bool)

  function Step(s: State, c: Call, now: u32): State
  {
    match c
    case AddCall(p) => AddAct(s, p, now).0
    case UpdateCall(cycle, p) => UpdateAct(s, cycle, p, now).0
    case MintCall(who, mint, native) => UpdateClaimInfo(s, who, mint, native, now)
    case BatchCall(entries) => UpdateBatch(s, entries, now).0
    case ClaimCall(who, cycle, index, funded, payable) => ClaimReward(s, who, cycle, index, now, funded, payable).0
  }

  function Run(s: State, calls: seq<(Call, u32)>): State
    decreases |calls|
  {
    if calls == [] then s else Run(Step(s, calls[0].0, calls[0].1), calls[1..])
  }

  /** No counter wraps. */
  ghost predicate Counted(s: State, c: Call)
  {
    match c
    case AddCall(_) => s.latest < U32_MAX
    case MintCall(_, _, _) => CountsBelow(s, U64_MAX - 1)
    case BatchCall(_) => CountsBelow(s, U64_MAX - 200)
    case _ => true
  }

  /** No counter wraps, and no update cuts a total below what is allocated. */
  ghost predicate Admissible(s: State, c: Call)
  {
    Counted(s, c) && (c.UpdateCall? ==> c.p.total >= Allocated(s, c.cycle))
  }

  ghost predicate AdmissibleRun(s: State, calls: seq<(Call, u32)>)
    decreases |calls|
  {
    calls != [] ==> Admissible(s, calls[0].0) && AdmissibleRun(Step(s, calls[0].0, calls[0].1), calls[1..])
  }

  lemma StepKeepsBudgets(s: State, c: Call, now: u32)
    requires BudgetsOk(s) && Admissible(s, c)
    ensures BudgetsOk(Step(s, c, now))
  {
    hide BudgetsOk, Locate;
    match c {
      case AddCall(p) => AddKeeps(s, p, now);
      case UpdateCall(cycle, p) => UpdateKeeps(s, cycle, p, now);
      case ClaimCall(who, cycle, index, funded, payable) => ClaimKeeps(s, who, cycle, index, now, funded, payable);
      case MintCall(who, mint, native) =>
        var (s', found) := Locate(s, now);
        LocateKeeps(s, now);
        CursorFree(s, s'.current);
        if found.Some? && s'.acts[s'.current].left > 0 {
          assert Count(s', who, s'.current) == Count(s, who, s'.current);
          AllocateKeeps(s', s'.current, who, mint, native, now);
        }
      case BatchCall(entries) =>
        var (s', found) := Locate(s, now);
        LocateKeeps(s, now);
        CursorFree(s, s'.current);
        if found.Some? && |entries| < 200 {
          forall who: Holder, cycle: u32
            ensures Count(s', who, cycle) <= U64_MAX - |entries|
          {
            assert Count(s', who, cycle) == Count(s, who, cycle);
          }
          AllocateAllKeeps(s', s'.current, entries, now);
        }
    }
  }

  /** left + allocated == total for every cycle, in every state of every admissible run. */
  lemma {:induction false} BudgetsInRuns(s: State, calls: seq<(Call, u32)>)
    requires BudgetsOk(s) && AdmissibleRun(s, calls)
    ensures BudgetsOk(Run(s, calls))
    decreases |calls|
  {
    hide BudgetsOk, Step, Admissible;
    if calls != [] {
      StepKeepsBudgets(s, calls[0].0, calls[0].1);
      BudgetsInRuns(Step(s, calls[0].0, calls[0].1), calls[1..]);
    }
  }

  // ----- the cursor over runs

  /** Same cycles, same windows, same cursor. */
  predicate SameWindows(s: State, s': State)
  {
    && s'.latest == s.latest && s'.current == s.current && s'.acts.Keys == s.acts.Keys
    && forall i: u32 :: i in s.acts ==> s'.acts[i].begin == s.acts[i].begin && s'.acts[i].end == s.acts[i].end
  }

  lemma AllocateWindows(s: State, cycle: u32, who: Holder, mint: u128, native: u128, now: u32)
    requires cycle in s.acts
    ensures SameWindows(s, Allocate(s, cycle, who, mint, native, now))
  {
    hide RewardFor;
  }

  lemma {:induction false} AllocateAllWindows(s: State, cycle: u32, entries: seq<Entry>, now: u32)
    requires cycle in s.acts
    ensures SameWindows(s, AllocateAll(s, cycle, entries, now))
    decreases |entries|
  {
    hide Allocate;
    if entries != [] && s.acts[cycle].left > 0 {
      var e := entries[0];
      AllocateWindows(s, cycle, e.who, e.mint, e.native, now);
      AllocateAllWindows(Allocate(s, cycle, e.who, e.mint, e.native, now), cycle, entries[1..], now);
    }
  }

  lemma WindowsKeep(s: State, s': State, now: u32)
    requires Sorted(s) && CursorOk(s, now) && SameWindows(s, s')
    ensures Sorted(s') && CursorOk(s', now)
  {
  }

  lemma AddKeepsOrder(s: State, p: ActParams, now: u32, t: u32)
    requires Sorted(s) && CursorOk(s, t) && s.latest < U32_MAX
    ensures Sorted(AddAct(s, p, now).0) && CursorOk(AddAct(s, p, now).0, t)
  {
    hide AddAct;
    var (s', e) := AddAct(s, p, now);
    AddEffect(s, p, now);
    if e.None? {
      forall i: u32, j: u32 | i in s'.acts && j in s'.acts && i < j
        ensures s'.acts[i].end < s'.acts[j].begin
      {
        if j == s'.latest && i < s.latest {
          assert s.acts[i].end < s.acts[s.latest].begin;
        }
      }
    }
  }

  /** The cycle counter does not wrap, and an update keeps the window of its act. */
  predicate KeepsWindows(s: State, c: Call)
  {
    && (c.AddCall? ==> s.latest < U32_MAX)
    && (c.UpdateCall? && c.cycle in s.acts ==> c.p.begin == s.acts[c.cycle].begin && c.p.end == s.acts[c.cycle].end)
  }

  lemma StepKeepsOrder(s: State, c: Call, now: u32)
    requires Sorted(s) && CursorOk(s, now) && KeepsWindows(s, c)
    ensures Sorted(Step(s, c, now)) && CursorOk(Step(s, c, now), now)
  {
    hide Locate, Allocate, AllocateAll, FirstError, Sorted, CursorOk, AddAct, Claimable;
    match c {
      case AddCall(p) => AddKeepsOrder(s, p, now, now);
      case UpdateCall(cycle, p) => WindowsKeep(s, Step(s, c, now), now);
      case ClaimCall(_, _, _, _, _) => WindowsKeep(s, Step(s, c, now), now);
      case MintCall(who, mint, native) =>
        LocateIsSearch(s, now);
        var (s', found) := Locate(s, now);
        if found.Some? && s'.acts[s'.current].left > 0 {
          AllocateWindows(s', s'.current, who, mint, native, now);
          WindowsKeep(s', Allocate(s', s'.current, who, mint, native, now), now);
        }
      case BatchCall(entries) =>
        LocateIsSearch(s, now);
        var (s', found) := Locate(s, now);
        if found.Some? {
          AllocateAllWindows(s', s'.current, entries, now);
          WindowsKeep(s', AllocateAll(s', s'.current, entries, now), now);
        }
    }
  }

  /** Blocks never go back, and acts keep the windows they were added with. */
  predicate FixedWindows(s: State, from: u32, calls: seq<(Call, u32)>)
    decreases |calls|
  {
    calls != [] ==>
      && from <= calls[0].1 && KeepsWindows(s, calls[0].0)
      && FixedWindows(Step(s, calls[0].0, calls[0].1), calls[0].1, calls[1..])
  }

  function LastBlock(from: u32, calls: seq<(Call, u32)>): u32 { if calls == [] then from else calls[|calls| - 1].1 }

  lemma {:induction false} OrderInRuns(s: State, from: u32, calls: seq<(Call, u32)>)
    requires Sorted(s) && CursorOk(s, from) && FixedWindows(s, from, calls)
    ensures Sorted(Run(s, calls)) && CursorOk(Run(s, calls), LastBlock(from, calls))
    decreases |calls|
  {
    hide Sorted, Step, KeepsWindows;
    if calls != [] {
      StepKeepsOrder(s, calls[0].0, calls[0].1);
      OrderInRuns(Step(s, calls[0].0, calls[0].1), calls[0].1, calls[1..]);
    }
  }

  /** After any run that moves no window, at any later block, the cursor finds exactly the running act. */
  lemma CursorInRuns(s: State, from: u32, calls: seq<(Call, u32)>, now: u32, i: u32)
    requires Sorted(s) && CursorOk(s, from) && FixedWindows(s, from, calls) && LastBlock(from, calls) <= now
    ensures Locate(Run(s, calls), now).1 == Some(i) <==> IsRunning(Run(s, calls), i, now)
  {
    hide Sorted, Run, FixedWindows, Locate;
    OrderInRuns(s, from, calls);
    LocateIsSearch(Run(s, calls), now);
  }

  // ----- a batch is a sequence of single mints

  function Singles(s: State, entries: seq<Entry>, now: u32): State
    decreases |entries|
  {
    if entries == [] then s
    else Singles(UpdateClaimInfo(s, entries[0].who, entries[0].mint, entries[0].native, now), entries[1..], now)
  }

  lemma {:induction false} SettledSingles(s: State, entries: seq<Entry>, now: u32)
    requires Sorted(s) && CursorOk(s, now) && Locate(s, now).0 == s
    ensures Singles(s, entries, now) ==
            if Locate(s, now).1.None? then s else AllocateAll(s, s.current, entries, now)
    decreases |entries|
  {
    hide Allocate, Locate;
    LocateIsSearch(s, now);
    if entries != [] {
      var e := entries[0];
      if Locate(s, now).1.None? || s.acts[s.current].left == 0 {
        SettledSingles(s, entries[1..], now);
      } else {
        var s' := Allocate(s, s.current, e.who, e.mint, e.native, now);
        AllocateWindows(s, s.current, e.who, e.mint, e.native, now);
        WindowsKeep(s, s', now);
        LocateIsSearch(s', now);
        assert IsRunning(s, s.current, now);
        assert IsRunning(s', s'.current, now);
        SettledSingles(s', entries[1..], now);
      }
    }
  }

  /** The batch entry point leaves the same state as one `update_claim_info` per entry. */
  lemma BatchIsSequence(s: State, entries: seq<Entry>, now: u32)
    requires Sorted(s) && CursorOk(s, now)
    requires entries != [] && |entries| < 200 && FirstError(entries).None?
    ensures UpdateBatch(s, entries, now) == (Singles(s, entries, now), None)
  {
    hide Allocate, Locate, FirstError;
    LocateIsSearch(s, now);
    var s' := Locate(s, now).0;
    LocateIsSearch(s', now);
    assert Locate(s', now) == Locate(s, now) by {
      forall i: u32
        ensures IsRunning(s, i, now) <==> IsRunning(s', i, now)
      {
      }
      if Locate(s, now).1.Some? {
        assert IsRunning(s', s'.current, now);
      }
    }
    SettledSingles(s', entries, now);
    assert Singles(s, entries, now) == Singles(s', entries, now);
  }

  // ----- a claim record over runs

  lemma {:induction false} AllocateAllFrames(s: State, cycle: u32, entries: seq<Entry>, now: u32, key: ClaimKey)
    requires KeysOk(s) && cycle in s.acts && CountsBelow(s, U64_MAX - |entries|) && key in s.claims
    ensures var s' := AllocateAll(s, cycle, entries, now);
            && key in s'.claims && s'.claims[key] == s.claims[key]
            && s'.acts.Keys == s.acts.Keys
            && forall c: u32 :: c in s.acts ==> s'.acts[c].locked == s.acts[c].locked
    decreases |entries|
  {
    hide RewardFor, KeysOk;
    if entries != [] && s.acts[cycle].left > 0 {
      var e := entries[0];
      AllocateKeepsKeys(s, cycle, e.who, e.mint, e.native, now);
      AllocateCounts(s, cycle, e.who, e.mint, e.native, now, U64_MAX - |entries|);
      AllocateAllFrames(Allocate(s, cycle, e.who, e.mint, e.native, now), cycle, entries[1..], now, key);
    }
  }

  /** The paid claim attempts of the run on one record. */
  predicate ClaimsKey(c: Call, key: ClaimKey)
  {
    c.ClaimCall? && (c.who, c.cycle, c.index) == key && c.funded && c.payable
  }

  function ClaimBlocks(calls: seq<(Call, u32)>, key: ClaimKey): seq<u32>
    decreases |calls|
  {
    if calls == [] then []
    else if ClaimsKey(calls[0].0, key) then [calls[0].1] + ClaimBlocks(calls[1..], key)
    else ClaimBlocks(calls[1..], key)
  }

  /** An update of the record's act leaves its vesting time. */
  predicate Leaves(c: Call, cycle: u32, locked: u32) { c.UpdateCall? && c.cycle == cycle ==> c.p.locked == locked }

  lemma StepFollows(s: State, c: Call, now: u32, key: ClaimKey)
    requires KeysOk(s) && Counted(s, c) && key in s.claims && Leaves(c, key.1, s.acts[key.1].locked)
    ensures var s' := Step(s, c, now);
            && key in s'.claims && key.1 in s.acts && key.1 in s'.acts
            && s'.acts[key.1].locked == s.acts[key.1].locked
            && s'.claims[key] == if ClaimsKey(c, key) then Claim(s.claims[key], s.acts[key.1].locked, now)
               else s.claims[key]
  {
    hide Locate, Claimable, Allocate, RewardFor, AddAct, FirstError;
    match c {
      case AddCall(p) => AddEffect(s, p, now);
      case UpdateCall(_, _) =>
      case ClaimCall(_, _, _, _, _) =>
      case MintCall(who, mint, native) =>
        LocateKeeps(s, now);
        var (s', found) := Locate(s, now);
        if found.Some? && s'.acts[s'.current].left > 0 {
          AllocateFrames(s', s'.current, who, mint, native, now, key);
        }
      case BatchCall(entries) =>
        LocateKeeps(s, now);
        var (s', found) := Locate(s, now);
        if found.Some? && |entries| < 200 {
          forall who: Holder, cycle: u32
            ensures Count(s', who, cycle) <= U64_MAX - |entries|
          {
            assert Count(s', who, cycle) == Count(s, who, cycle);
          }
          AllocateAllFrames(s', s'.current, entries, now, key);
        }
    }
  }

  lemma StepKeepsKeys(s: State, c: Call, now: u32)
    requires KeysOk(s) && Counted(s, c)
    ensures KeysOk(Step(s, c, now))
  {
    hide Locate, Claimable, Allocate, RewardFor, AddAct, FirstError, KeysOk;
    match c {
      case AddCall(p) =>
        AddEffect(s, p, now);
        if AddAct(s, p, now).1.None? {
          AddKeepsKeys(s, Step(s, c, now), Step(s, c, now).acts[Step(s, c, now).latest]);
        }
      case UpdateCall(_, _) => SameKeys(s, Step(s, c, now));
      case ClaimCall(_, _, _, _, _) => SameKeys(s, Step(s, c, now));
      case MintCall(who, mint, native) =>
        LocateKeeps(s, now);
        var (s', found) := Locate(s, now);
        SameKeys(s, s');
        if found.Some? && s'.acts[s'.current].left > 0 {
          assert Count(s', who, s'.current) == Count(s, who, s'.current);
          AllocateKeepsKeys(s', s'.current, who, mint, native, now);
        }
      case BatchCall(entries) =>
        LocateKeeps(s, now);
        var (s', found) := Locate(s, now);
        SameKeys(s, s');
        if found.Some? && |entries| < 200 {
          forall who: Holder, cycle: u32
            ensures Count(s', who, cycle) <= U64_MAX - |entries|
          {
            assert Count(s', who, cycle) == Count(s, who, cycle);
          }
          AllocateAllKeepsKeys(s', s'.current, entries, now);
        }
    }
  }

  lemma SameKeys(s: State, s': State)
    requires KeysOk(s) && s'.latest == s.latest && s'.counts == s.counts
    requires s'.acts.Keys == s.acts.Keys && s'.claims.Keys == s.claims.Keys
    ensures KeysOk(s')
  {
    assert forall i: u32 :: i in s'.acts <==> i in s'.acts.Keys;
    assert forall k :: k in s'.claims <==> k in s'.claims.Keys;
    assert forall i: u32 :: i in s.acts <==> i in s.acts.Keys;
    assert forall k :: k in s.claims <==> k in s.claims.Keys;
    assert forall who: Holder, cycle: u32 :: Count(s', who, cycle) == Count(s, who, cycle);
  }

  lemma {:induction false} AllocateAllKeepsKeys(s: State, cycle: u32, entries: seq<Entry>, now: u32)
    requires KeysOk(s) && cycle in s.acts && CountsBelow(s, U64_MAX - |entries|)
    ensures KeysOk(AllocateAll(s, cycle, entries, now))
    decreases |entries|
  {
    hide KeysOk, Allocate;
    if entries != [] && s.acts[cycle].left > 0 {
      var e := entries[0];
      AllocateKeepsKeys(s, cycle, e.who, e.mint, e.native, now);
      AllocateCounts(s, cycle, e.who, e.mint, e.native, now, U64_MAX - |entries|);
      AllocateAllKeepsKeys(Allocate(s, cycle, e.who, e.mint, e.native, now), cycle, entries[1..], now);
    }
  }

  lemma AllocateFrames(s: State, cycle: u32, who: Holder, mint: u128, native: u128, now: u32, key: ClaimKey)
    requires KeysOk(s) && cycle in s.acts && key in s.claims
    ensures var s' := Allocate(s, cycle, who, mint, native, now);
            && key in s'.claims && s'.claims[key] == s.claims[key]
            && key.1 in s'.acts && s'.acts[key.1].locked == s.acts[key.1].locked
  {
    hide RewardFor;
  }

  ghost predicate CountedRun(s: State, calls: seq<(Call, u32)>)
    decreases |calls|
  {
    calls != [] ==> Counted(s, calls[0].0) && CountedRun(Step(s, calls[0].0, calls[0].1), calls[1..])
  }

  /** Every update of the record's act leaves its vesting time. */
  predicate TimeStays(calls: seq<(Call, u32)>, cycle: u32, locked: u32)
  {
    forall i :: 0 <= i < |calls| ==> Leaves(calls[i].0, cycle, locked)
  }

  /** Whatever else the run does, a claim record changes only by its own paid claims,
      exactly as `Claims` describes; the vesting laws apply to it. */
  lemma {:induction false} RecordInRuns(s: State, calls: seq<(Call, u32)>, key: ClaimKey)
    requires KeysOk(s) && CountedRun(s, calls) && key in s.claims && TimeStays(calls, key.1, s.acts[key.1].locked)
    ensures key.1 in s.acts && key in Run(s, calls).claims
    ensures Run(s, calls).claims[key] == Claims(s.claims[key], s.acts[key.1].locked, ClaimBlocks(calls, key)).0
    decreases |calls|
  {
    hide Step, Claim, Counted, Leaves;
    if calls != [] {
      StepKeepsKeys(s, calls[0].0, calls[0].1);
      StepFollows(s, calls[0].0, calls[0].1, key);
      assert TimeStays(calls[1..], key.1, s.acts[key.1].locked);
      RecordInRuns(Step(s, calls[0].0, calls[0].1), calls[1..], key);
      if ClaimsKey(calls[0].0, key) {
        assert ClaimBlocks(calls, key)[1..] == ClaimBlocks(calls[1..], key);
      }
    }
  }

  /** Block numbers do not go back. */
  predicate Ordered(calls: seq<(Call, u32)>, from: u32)
    decreases |calls|
  {
    calls != [] ==> from <= calls[0].1 && Ordered(calls[1..], calls[0].1)
  }

  lemma {:induction false} BlocksRise(calls: seq<(Call, u32)>, from: u32, key: ClaimKey)
    requires Ordered(calls, from)
    ensures Rising(from, ClaimBlocks(calls, key))
    decreases |calls|
  {
    if calls != [] {
      BlocksRise(calls[1..], calls[0].1, key);
      var later := ClaimBlocks(calls[1..], key);
      assert forall i :: 0 <= i < |later| ==> calls[0].1 <= later[i];
    }
  }

  /** The vesting law for a reward in the pallet: over any run that leaves its vesting time, whatever else
      is called in between, from a mint to the last claim of the run. */
  lemma VestingInRuns(s: State, calls: seq<(Call, u32)>, key: ClaimKey)
    requires KeysOk(s) && CountedRun(s, calls) && key in s.claims && TimeStays(calls, key.1, s.acts[key.1].locked)
    requires s.claims[key].claimed == 0 && s.claims[key].latest == s.claims[key].mintBlock
    requires Ordered(calls, s.claims[key].mintBlock) && ClaimBlocks(calls, key) != []
    ensures key.1 in s.acts && key in Run(s, calls).claims
    ensures var info, end, locked, times := s.claims[key], Run(s, calls).claims[key], s.acts[key.1].locked,
            ClaimBlocks(calls, key);
            var n, last, span := Claims(info, locked, times).1, times[|times| - 1], Span(info, locked);
            && end.claimed <= info.reward
            && (last < FinalBlock(info, locked) ==> end.claimed * span <= info.reward * (last - info.mintBlock))
            && (n > 0 && last < FinalBlock(info, locked) ==>
                  info.reward * (end.latest - info.mintBlock) < (end.claimed + n) * span)
            && (last >= FinalBlock(info, locked) ==> end.claimed == info.reward)
  {
    hide Run, Claims, Ordered, ClaimBlocks, CountedRun, TimeStays, Rising;
    RecordInRuns(s, calls, key);
    BlocksRise(calls, s.claims[key].mintBlock, key);
    VestingOverClaims(s.claims[key], s.acts[key.1].locked, ClaimBlocks(calls, key));
  }
}

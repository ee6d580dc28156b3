/** claims/rclaim for one symbol: reward acts with a block window and a budget, the
    cursor that finds the running act, and the claims allocated from it. The rETH
    part of the pallet is the same storage keyed by a public key. */
module RewardActs {
  import opened Arithmetic
  import opened Rate
  import opened Vesting

  /** An account id or a public key. */
  type Holder = seq<nat>

  datatype Act = Act(
    begin: u32, end: u32, cycle: u32, rate: u128, total: u128, left: u128, userLimit: u128, locked: u32,
    rtokens: u128, natives: u128)

  type ClaimKey = (Holder, u32, u64)

  datatype State = State(
    acts: map<u32, Act>, latest: u32, current: u32, claims: map<ClaimKey, ClaimInfo>, counts: map<(Holder, u32), u64>,
    userActs: map<Holder, seq<u32>>)

  datatype ActError =
    | BeginZero | EndNotAfterBegin | TotalZero | TotalNotAboveLimit | LockedZero | RateZero | EndPassed
    | BeginNotAfterLast | HasNoAct | HasNoClaimInfo | NoFundAddress | ValueZero | TransferFailed
    | InvalidREthRewarder | PubkeyAndValueNumberErr | InvalidPubkey

  datatype ActParams = ActParams(begin: u32, end: u32, total: u128, userLimit: u128, locked: u32, rate: u128)

  function ParamError(p: ActParams): Option<ActError>
  {
    if p.begin == 0 then Some(BeginZero)
    else if p.end <= p.begin then Some(EndNotAfterBegin)
    else if p.total == 0 then Some(TotalZero)
    else if p.total <= p.userLimit then Some(TotalNotAboveLimit)
    else if p.locked == 0 then Some(LockedZero)
    else if p.rate == 0 then Some(RateZero)
    else None
  }

  function AddAct(s: State, p: ActParams, now: u32): (State, Option<ActError>)
  {
    if ParamError(p).Some? then (s, ParamError(p))
    else if p.end <= now then (s, Some(EndPassed))
    else if s.latest > 0 && s.latest !in s.acts then (s, Some(HasNoAct))
    else if s.latest > 0 && p.begin <= s.acts[s.latest].end then (s, Some(BeginNotAfterLast))
    else
      var cycle := Wrap32(s.latest + 1);
      (s.(latest := cycle,
          acts := s.acts[cycle := Act(p.begin, p.end, cycle, p.rate, p.total, p.total, p.userLimit, p.locked, 0, 0)]),
            None)
  }

  function UpdateAct(s: State, cycle: u32, p: ActParams, now: u32): (State, Option<ActError>)
  {
    if ParamError(p).Some? then (s, ParamError(p))
    else if cycle !in s.acts then (s, Some(HasNoAct))
    else if p.end <= now then (s, Some(EndPassed))
    else
      var act := s.acts[cycle];
      var left := if p.total > act.total then SatAdd(act.left, SatSub(p.total, act.total))
                  else SatSub(act.left, SatSub(act.total, p.total));
      (s.(acts := s.acts[cycle := act.(begin := p.begin, end := p.end, cycle := cycle, rate := p.rate, total := p.total,
                                       left := left, userLimit := p.userLimit, locked := p.locked)]), None)
  }

  // ----- the cursor

  predicate Running(act: Act, now: u32) { act.begin <= now <= act.end }

  /** The first running act from cycle i on, stopping at the first that has not begun. */
  function Scan(acts: map<u32, Act>, i: nat, latest: u32, now: u32): Option<u32>
    decreases latest + 1 - i
  {
    if i > latest then None
    else if i !in acts then Scan(acts, i + 1, latest, now)
    else if now < acts[i].begin then None
    else if acts[i].end >= now then Some(i)
    else Scan(acts, i + 1, latest, now)
  }

  /** `update_act_current_cycle` */
  function Advance(s: State, now: u32): State
  {
    match Scan(s.acts, s.current + 1, s.latest, now)
    case Some(i) => s.(current := i)
    case None => s
  }

  /** The act that takes new mints at block `now`, and the state with the cursor moved. */
  function Locate(s: State, now: u32): (State, Option<u32>)
  {
    var s1 := if s.current == 0 then Advance(s, now) else s;
    if s1.current == 0 || s1.current !in s1.acts then (s1, None)
    else
      var s2 := if s1.acts[s1.current].end < now then Advance(s1, now) else s1;
      if s2.current !in s2.acts || !Running(s2.acts[s2.current], now) then (s2, None)
      else (s2, Some(s2.current))
  }

  // ----- allocation

  function RewardFor(act: Act, native: u128): u128
  {
    var raw := match MulRational(native, act.rate, RATEBASE)
      case Some(v) => v
      case None => 0;
    var capped := if raw > act.left then act.left else raw;
    if act.userLimit > 0 && capped > act.userLimit then act.userLimit else capped
  }

  function Count(s: State, who: Holder, cycle: u32): u64
  {
    if (who, cycle) in s.counts then s.counts[(who, cycle)] else 0
  }

  function Spend(act: Act, mint: u128, native: u128): Act
  {
    act.(left := SatSub(act.left, RewardFor(act, native)), rtokens := SatAdd(act.rtokens, mint),
         natives := SatAdd(act.natives, native))
  }

  function Enlisted(s: State, who: Holder, cycle: u32): map<Holder, seq<u32>>
  {
    var mine := if who in s.userActs then s.userActs[who] else [];
    if cycle in mine then s.userActs else s.userActs[who := mine + [cycle]]
  }

  function Allocate(s: State, cycle: u32, who: Holder, mint: u128, native: u128, now: u32): State
    requires cycle in s.acts
  {
    var act, n := s.acts[cycle], Count(s, who, cycle);
    s.(claims := s.claims[(who, cycle, n) := ClaimInfo(mint, native, RewardFor(act, native), 0, now, now)],
       userActs := Enlisted(s, who, cycle),
       counts := s.counts[(who, cycle) := (n + 1) % (U64_MAX + 1)],
       acts := s.acts[cycle := Spend(act, mint, native)])
  }

  /** `update_claim_info` */
  function UpdateClaimInfo(s: State, who: Holder, mint: u128, native: u128, now: u32): State
  {
    var (s', found) := Locate(s, now);
    if found.None? || s'.acts[s'.current].left == 0 then s' else Allocate(s', s'.current, who, mint, native, now)
  }

  datatype Entry = Entry(who: Holder, mint: u128, native: u128)

  function AllocateAll(s: State, cycle: u32, entries: seq<Entry>, now: u32): State
    requires cycle in s.acts
    decreases |entries|
  {
    if entries == [] || s.acts[cycle].left == 0 then s
    else AllocateAll(Allocate(s, cycle, entries[0].who, entries[0].mint, entries[0].native, now), cycle, entries[1..],
                     now)
  }

  function EntryError(e: Entry): Option<ActError>
  {
    if |e.who| != 20 then Some(InvalidPubkey) else if e.mint == 0 || e.native == 0 then Some(ValueZero) else None
  }

  function FirstError(entries: seq<Entry>): Option<ActError>
    decreases |entries|
  {
    if entries == [] then None
    else if EntryError(entries[0]).Some? then EntryError(entries[0])
    else FirstError(entries[1..])
  }

  /** `update_reth_claim_info`, once the caller is known to be the rewarder; the three
      parallel lists of the source are one list of entries. */
  function UpdateBatch(s: State, entries: seq<Entry>, now: u32): (State, Option<ActError>)
  {
    if |entries| >= 200 then (s, Some(PubkeyAndValueNumberErr))
    else
      var (s', found) := Locate(s, now);
      if found.None? || s'.acts[s'.current].left == 0 then (s', None)
      else if FirstError(entries).Some? then (s', FirstError(entries))
      else (AllocateAll(s', s'.current, entries, now), None)
  }

  /** `claim_rtoken_reward`: the new state, the error, and what was paid. */
  function ClaimReward(s: State, who: Holder, cycle: u32, index: u64, now: u32, funded: bool, payable: bool)
    : (State, Option<ActError>, u128)
  {
    var key := (who, cycle, index);
    if key !in s.claims then (s, Some(HasNoClaimInfo), 0)
    else if cycle !in s.acts then (s, Some(HasNoAct), 0)
    else if !funded then (s, Some(NoFundAddress), 0)
    else
      var info := s.claims[key];
      var v := Claimable(info, s.acts[cycle].locked, now);
      if v == 0 then (s, Some(ValueZero), 0)
      else if !payable then (s, Some(TransferFailed), 0)
      else (s.(claims := s.claims[key := Claim(info, s.acts[cycle].locked, now)]), None, v)
  }
}

/** One symbol's accounts in rtoken/balances, and likewise in rdex/balances:
    the two pallets share this code. */
module Tokens {
  import opened Arithmetic
  import opened Sums

  type Account = nat

  datatype TokenError = InsufficientBalance | Overflow

  datatype Bank = Bank(accounts: map<Account, u128>, issuance: u128)

  datatype Moved = Moved(bank: Bank) | Failed(error: TokenError)

  const EMPTY_BANK := Bank(map[], 0)

  function Free(b: Bank, who: Account): u128 { if who in b.accounts then b.accounts[who] else 0 }

  function Transfer(b: Bank, from: Account, to: Account, v: u128): Moved
  {
    if v == 0 || from == to then Moved(b)
    else if Free(b, from) < v then Failed(InsufficientBalance)
    else if Free(b, to) + v > U128_MAX then Failed(Overflow)
    else Moved(b.(accounts := b.accounts[from := Free(b, from) - v][to := Free(b, to) + v]))
  }

  function Mint(b: Bank, who: Account, v: u128): Moved
  {
    if v == 0 then Moved(b)
    else if Free(b, who) + v > U128_MAX then Failed(Overflow)
    else Moved(Bank(b.accounts[who := Free(b, who) + v], SatAdd(b.issuance, v)))
  }

  function Burn(b: Bank, who: Account, v: u128): Moved
  {
    if v == 0 then Moved(b)
    else if Free(b, who) < v then Failed(InsufficientBalance)
    else Moved(Bank(b.accounts[who := Free(b, who) - v], SatSub(b.issuance, v)))
  }

  ghost function Holdings(b: Bank): nat { Sum(b.accounts) }

  lemma FreeAtMostHoldings(b: Bank, who: Account)
    ensures Free(b, who) <= Holdings(b)
  {
    if who in b.accounts {
      SumMember(b.accounts, who);
    }
  }

  lemma TwoAtMostHoldings(b: Bank, x: Account, y: Account)
    requires x != y
    ensures Free(b, x) + Free(b, y) <= Holdings(b)
  {
    if x in b.accounts {
      SumSplit(b.accounts, x);
      var rest := b.accounts - {x};
      if y in b.accounts {
        SumMember(rest, y);
      }
    } else {
      FreeAtMostHoldings(b, y);
    }
  }

  /** A transfer moves value between two accounts and changes nothing else. */
  lemma TransferConserves(b: Bank, from: Account, to: Account, v: u128)
    ensures var m := Transfer(b, from, to, v);
            m.Moved? ==>
              && Holdings(m.bank) == Holdings(b)
              && m.bank.issuance == b.issuance
              && (from != to ==> Free(m.bank, from) + v == Free(b, from) && Free(m.bank, to) == Free(b, to) + v)
  {
    if v != 0 && from != to && Free(b, from) >= v && Free(b, to) + v <= U128_MAX {
      SumInsert(b.accounts, from, Free(b, from) - v);
      SumInsert(b.accounts[from := Free(b, from) - v], to, Free(b, to) + v);
    }
  }

  lemma TransferOthers(b: Bank, from: Account, to: Account, v: u128, other: Account)
    requires (other != from && other != to) || from == to
    ensures var m := Transfer(b, from, to, v);
            m.Moved? ==> Free(m.bank, other) == Free(b, other)
  {
  }

  /** `from` is v poorer, `to` is v richer; no other account and not the issuance is different. */
  ghost predicate Pays(b: Bank, b': Bank, from: Account, to: Account, v: nat)
  {
    && b'.issuance == b.issuance
    && (from != to ==> Free(b', from) + v == Free(b, from) && Free(b', to) == Free(b, to) + v)
    && (forall a: Account :: a != from && a != to ==> Free(b', a) == Free(b, a))
    && (from == to ==> Free(b', from) == Free(b, from))
  }

  /** `who` is v richer, and the issuance v higher as far as it fits; no other account is different. */
  ghost predicate Credits(b: Bank, b': Bank, who: Account, v: nat)
  {
    && Free(b', who) == Free(b, who) + v && b'.issuance == Min(b.issuance + v, U128_MAX)
    && (forall a: Account :: a != who ==> Free(b', a) == Free(b, a))
  }

  /** `who` is v poorer, and the issuance v lower unless that is below nothing; no other account is different. */
  ghost predicate Debits(b: Bank, b': Bank, who: Account, v: nat)
  {
    && Free(b', who) + v == Free(b, who) && b'.issuance == (if b.issuance >= v then b.issuance - v else 0)
    && (forall a: Account :: a != who ==> Free(b', a) == Free(b, a))
  }

  lemma TransferPays(b: Bank, from: Account, to: Account, v: u128)
    ensures Transfer(b, from, to, v).Moved? ==> Pays(b, Transfer(b, from, to, v).bank, from, to, v)
  {
  }

  lemma MintCredits(b: Bank, who: Account, v: u128)
    ensures Mint(b, who, v).Moved? <==> Free(b, who) + v <= U128_MAX
    ensures Mint(b, who, v).Moved? ==> Credits(b, Mint(b, who, v).bank, who, v)
  {
  }

  lemma BurnDebits(b: Bank, who: Account, v: u128)
    ensures Burn(b, who, v).Moved? <==> v <= Free(b, who)
    ensures Burn(b, who, v).Moved? ==> Debits(b, Burn(b, who, v).bank, who, v)
  {
  }

  /** While all balances together fit u128, a transfer fails only for lack of funds. */
  lemma TransferFailsOnlyShort(b: Bank, from: Account, to: Account, v: u128)
    requires Holdings(b) <= U128_MAX
    ensures Transfer(b, from, to, v).Failed? <==> v > 0 && from != to && Free(b, from) < v
  {
    if from != to {
      TwoAtMostHoldings(b, from, to);
    }
  }

  lemma MintAdds(b: Bank, who: Account, v: u128)
    ensures var m := Mint(b, who, v);
            m.Moved? ==> Holdings(m.bank) == Holdings(b) + v && m.bank.issuance == SatAdd(b.issuance, v)
  {
    if v > 0 && Free(b, who) + v <= U128_MAX {
      SumInsert(b.accounts, who, Free(b, who) + v);
    }
  }

  lemma BurnSubtracts(b: Bank, who: Account, v: u128)
    ensures var m := Burn(b, who, v);
            m.Moved? ==> Holdings(m.bank) == Holdings(b) - v && m.bank.issuance == SatSub(b.issuance, v)
  {
    if v > 0 && Free(b, who) >= v {
      SumInsert(b.accounts, who, Free(b, who) - v);
    }
  }

  datatype BankCall =
    | TransferCall(from: Account, to: Account, v: u128)
    | MintCall(who: Account, v: u128)
    | BurnCall(who: Account, v: u128)

  function BankStep(b: Bank, c: BankCall): Bank
  {
    var m := match c
      case TransferCall(from, to, v) => Transfer(b, from, to, v)
      case MintCall(who, v) => Mint(b, who, v)
      case BurnCall(who, v) => Burn(b, who, v);
    if m.Moved? then m.bank else b
  }

  function BankRun(b: Bank, calls: seq<BankCall>): Bank
    decreases |calls|
  {
    if calls == [] then b else BankRun(BankStep(b, calls[0]), calls[1..])
  }

  /** No mint of the run takes the issuance past u128. */
  predicate NeverSaturates(b: Bank, calls: seq<BankCall>)
    decreases |calls|
  {
    calls != [] ==>
      && (calls[0].MintCall? ==> b.issuance + calls[0].v <= U128_MAX)
      && NeverSaturates(BankStep(b, calls[0]), calls[1..])
  }

  /** The recorded issuance is the sum of all balances, after every run that does not saturate it. */
  lemma {:induction false} IssuanceIsSupply(b: Bank, calls: seq<BankCall>)
    requires Holdings(b) == b.issuance
    requires NeverSaturates(b, calls)
    ensures Holdings(BankRun(b, calls)) == BankRun(b, calls).issuance
    decreases |calls|
  {
    if calls != [] {
      match calls[0] {
        case TransferCall(from, to, v) => TransferConserves(b, from, to, v);
        case MintCall(who, v) => MintAdds(b, who, v);
        case BurnCall(who, v) => BurnSubtracts(b, who, v);
      }
      IssuanceIsSupply(BankStep(b, calls[0]), calls[1..]);
    }
  }

  class TokenBalances {
    var accounts: map<Account, u128>
    var issuance: u128

    function View(): Bank
      reads this
    {
      Bank(accounts, issuance)
    }

    constructor ()
      ensures View() == EMPTY_BANK
    {
      accounts, issuance := map[], 0;
    }

    method TransferTo(from: Account, to: Account, v: u128) returns (error: Option<TokenError>)
      modifies this
      ensures match Transfer(old(View()), from, to, v)
              case Moved(b) => error == None && View() == b
              case Failed(e) => error == Some(e) && View() == old(View())
    {
      if v == 0 || from == to {
        return None;
      }
      var fromFree := if from in accounts then accounts[from] else 0;
      var toFree := if to in accounts then accounts[to] else 0;
      if fromFree < v {
        return Some(InsufficientBalance);
      }
      if toFree + v > U128_MAX {
        return Some(Overflow);
      }
      accounts := accounts[from := fromFree - v];
      accounts := accounts[to := toFree + v];
      return None;
    }

    method MintTo(who: Account, v: u128) returns (error: Option<TokenError>)
      modifies this
      ensures match Mint(old(View()), who, v)
              case Moved(b) => error == None && View() == b
              case Failed(e) => error == Some(e) && View() == old(View())
    {
      if v == 0 {
        return None;
      }
      var free := if who in accounts then accounts[who] else 0;
      if free + v > U128_MAX {
        return Some(Overflow);
      }
      accounts := accounts[who := free + v];
      issuance := if issuance + v <= U128_MAX then issuance + v else U128_MAX;
      return None;
    }

    method BurnFrom(who: Account, v: u128) returns (error: Option<TokenError>)
      modifies this
      ensures match Burn(old(View()), who, v)
              case Moved(b) => error == None && View() == b
              case Failed(e) => error == Some(e) && View() == old(View())
    {
      if v == 0 {
        return None;
      }
      var free := if who in accounts then accounts[who] else 0;
      if free < v {
        return Some(InsufficientBalance);
      }
      accounts := accounts[who := free - v];
      issuance := if issuance >= v then issuance - v else 0;
      return None;
    }
  }
}

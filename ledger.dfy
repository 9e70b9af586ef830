/** The banking ledger: accounts of two kinds, the clients that own them and
    the agency that registers both and is the entry point of every operation.
    Amounts are `real`: the model does not reproduce floating-point rounding. */
module Ledger {
  import opened Results

  /** The two concrete account classes, told apart by their type tag. */
  datatype AccountKind = Checking | Savings

  /** The type tag each kind of account carries; the tag alone tells the
      kind, so an account's kind stands for its tag everywhere below. */
  function TypeTag(kind: AccountKind): (tag: string)
    ensures tag == "CC" <==> kind == Checking
    ensures tag == "PP" <==> kind == Savings
  {
    match kind
    case Checking => "CC"
    case Savings => "PP"
  }

  /** Fee charged to every checking account by the monthly update. */
  const MonthlyFee: real := 20.0
  /** Interest credited to every savings account by the monthly update. */
  const MonthlyInterest: real := 0.01

  datatype LedgerError =
    | InvalidAmount       // a deposit or withdrawal of zero or less
    | InsufficientFunds   // a withdrawal larger than the balance
    | InvalidTarget       // a transfer to no account at all
    | AccountNotFound     // an agency operation naming an unregistered id
    | DuplicateClient     // registering a client id twice

  // ---------------------------------------------------------------------
  // Balance rules of a single account
  // ---------------------------------------------------------------------

  /** The balance after depositing `value`, or why the deposit is refused. */
  function Deposited(balance: real, value: real): (r: Result<real, LedgerError>)
    ensures r.Ok? <==> value > 0.0
    ensures r.Err? ==> r.error == InvalidAmount
    ensures r.Ok? ==> r.value > balance
  {
    if value <= 0.0 then Err(InvalidAmount) else Ok(balance + value)
  }

  /** The balance after withdrawing `value`, or why the withdrawal is refused.
      The amount is checked before the funds. */
  function Withdrawn(balance: real, value: real): (r: Result<real, LedgerError>)
    ensures r.Ok? <==> 0.0 < value <= balance
    ensures value <= 0.0 ==> r == Err(InvalidAmount)
    ensures 0.0 < value && balance < value ==> r == Err(InsufficientFunds)
    ensures r.Ok? ==> 0.0 <= r.value < balance
  {
    if value <= 0.0 then Err(InvalidAmount)
    else if balance < value then Err(InsufficientFunds)
    else Ok(balance - value)
  }

  /** Depositing and withdrawing the same amount undo each other. (On a
      negative balance a deposit cannot be withdrawn again.) */
  lemma WithdrawUndoesDeposit(balance: real, value: real)
    requires balance >= 0.0 && Deposited(balance, value).Ok?
    ensures Withdrawn(Deposited(balance, value).value, value) == Ok(balance)
  {
  }

  lemma DepositUndoesWithdraw(balance: real, value: real)
    requires Withdrawn(balance, value).Ok?
    ensures Deposited(Withdrawn(balance, value).value, value) == Ok(balance)
  {
  }

  /** The monthly rule of each kind of account. */
  function MonthlyRule(kind: AccountKind, balance: real): (r: real)
    ensures kind == Checking ==> r < balance
    ensures kind == Savings ==> (r > balance <==> balance > 0.0)
    ensures kind == Savings ==> (r < 0.0 <==> balance < 0.0)
  {
    match kind
    case Checking => balance - MonthlyFee
    case Savings => balance * (1.0 + MonthlyInterest)
  }

  /** The checking fee is always charged and has no floor: it drives any
      balance below 20 negative. Savings interest never shrinks a
      non-negative balance and keeps its sign. */
  lemma MonthlyRuleEffect(balance: real)
    ensures MonthlyRule(Checking, balance) == balance - 20.0
    ensures balance < 20.0 ==> MonthlyRule(Checking, balance) < 0.0
    ensures balance >= 0.0 ==> MonthlyRule(Savings, balance) >= balance
    ensures balance > 0.0 ==> MonthlyRule(Savings, balance) > balance
    ensures balance < 0.0 ==> MonthlyRule(Savings, balance) < 0.0
    ensures MonthlyRule(Savings, balance) == balance * 1.01
  {
  }

  // ---------------------------------------------------------------------
  // Accounts
  // ---------------------------------------------------------------------

  class Account {
    const id: int
    const clientId: string
    const kind: AccountKind
    var balance: real

    /** A new account starts empty; its id, owner and kind never change. */
    constructor (id: int, clientId: string, kind: AccountKind)
      ensures this.id == id && this.clientId == clientId && this.kind == kind
      ensures balance == 0.0
    {
      this.id := id;
      this.clientId := clientId;
      this.kind := kind;
      balance := 0.0;
    }

    method Deposit(value: real) returns (st: Status<LedgerError>)
      modifies this
      ensures Settled(Deposited(old(balance), value), old(balance), balance, st)
    {
      if value <= 0.0 {
        return Failed(InvalidAmount);
      }
      balance := balance + value;
      st := Done;
    }

    method Withdraw(value: real) returns (st: Status<LedgerError>)
      modifies this
      ensures Settled(Withdrawn(old(balance), value), old(balance), balance, st)
    {
      if value <= 0.0 {
        return Failed(InvalidAmount);
      }
      if balance < value {
        return Failed(InsufficientFunds);
      }
      balance := balance - value;
      st := Done;
    }

    /** Withdraws from this account, then deposits into `other`; the deposit
        is attempted only when the withdrawal succeeded, so either both legs
        happen or neither does. */
    method Transfer(other: Account?, value: real) returns (st: Status<LedgerError>)
      modifies this, other
      ensures other == null ==> st == Failed(InvalidTarget) && balance == old(balance)
      ensures other != null ==> st == Withdrawn(old(balance), value).ToStatus()
      ensures other != null && other != this && st == Done ==>
        balance == old(balance) - value && other.balance == old(other.balance) + value
      ensures other != null && (other == this || st != Done) ==>
        balance == old(balance) && other.balance == old(other.balance)
      ensures other != null ==> balance + other.balance == old(balance + other.balance)
    {
      if other == null {
        return Failed(InvalidTarget);
      }
      st := Withdraw(value);
      if st.Failed? {
        return;
      }
      st := other.Deposit(value);
    }

    method UpdateMonthly()
      modifies this
      ensures balance == MonthlyRule(kind, old(balance))
    {
      match kind
      case Checking => balance := balance - MonthlyFee;
      case Savings => balance := balance * (1.0 + MonthlyInterest);
    }
  }

  // ---------------------------------------------------------------------
  // Clients
  // ---------------------------------------------------------------------

  class Client {
    const name: string
    const clientId: string
    var accounts: seq<Account>

    constructor (name: string, clientId: string)
      ensures this.name == name && this.clientId == clientId && accounts == []
    {
      this.name := name;
      this.clientId := clientId;
      accounts := [];
    }

    method AddAccount(acc: Account)
      modifies this
      ensures accounts == old(accounts) + [acc]
    {
      accounts := accounts + [acc];
    }

    /** The client's accounts in creation order. The result is a sequence
        value: later changes to the client do not reach it, and nothing
        done to it reaches the client. */
    method GetAccounts() returns (r: seq<Account>)
      ensures r == accounts
    {
      r := accounts;
    }
  }

  // ---------------------------------------------------------------------
  // Sums of balances
  // ---------------------------------------------------------------------

  /** The sum of the balances filed under the ids 1 to n - 1. The agency
      numbers its accounts 1, 2, ... without gaps, so with n its next id
      this is the total value of the ledger. */
  function SumBelow(m: map<int, real>, n: int): real
    decreases n
  {
    if n <= 1 then 0.0
    else SumBelow(m, n - 1) + (if n - 1 in m then m[n - 1] else 0.0)
  }

  /** Changing one balance changes the sum by the same amount. */
  lemma {:induction false} SumBelowUpdate(m: map<int, real>, n: int, k: int, v: real)
    requires k in m && 1 <= k < n
    ensures SumBelow(m[k := v], n) == SumBelow(m, n) - m[k] + v
    decreases n
  {
    if k < n - 1 {
      SumBelowUpdate(m, n - 1, k, v);
    } else {
      SumBelowUnchanged(m, n - 1, k, v);
    }
  }

  /** Balances filed at or above n do not count. */
  lemma {:induction false} SumBelowUnchanged(m: map<int, real>, n: int, k: int, v: real)
    requires n <= k
    ensures SumBelow(m[k := v], n) == SumBelow(m, n)
    decreases n
  {
    if n > 1 {
      SumBelowUnchanged(m, n - 1, k, v);
    }
  }

  /** Ids that are all registered accounts of an agency whose next id is n. */
  ghost predicate NumberedBelow(m: map<int, real>, n: int)
  {
    forall k :: k in m ==> 1 <= k < n
  }

  // ---------------------------------------------------------------------
  // Agency operations on the map of balances
  // ---------------------------------------------------------------------

  /** The agency's deposit on the balances by id. */
  function DepositOn(m: map<int, real>, id: int, value: real): (r: Result<map<int, real>, LedgerError>)
    ensures id !in m ==> r == Err(AccountNotFound)
    ensures id in m ==> r.ToStatus() == Deposited(m[id], value).ToStatus()
    ensures r.Ok? ==> r.value.Keys == m.Keys && r.value[id] == Deposited(m[id], value).value
    ensures r.Ok? ==> forall j :: j in m && j != id ==> r.value[j] == m[j]
  {
    if id !in m then Err(AccountNotFound)
    else
      match Deposited(m[id], value)
      case Err(e) => Err(e)
      case Ok(b) => Ok(m[id := b])
  }

  /** The agency's withdrawal on the balances by id. */
  function WithdrawOn(m: map<int, real>, id: int, value: real): (r: Result<map<int, real>, LedgerError>)
    ensures id !in m ==> r == Err(AccountNotFound)
    ensures id in m ==> r.ToStatus() == Withdrawn(m[id], value).ToStatus()
    ensures r.Ok? ==> r.value.Keys == m.Keys && r.value[id] == Withdrawn(m[id], value).value
    ensures r.Ok? ==> forall j :: j in m && j != id ==> r.value[j] == m[j]
  {
    if id !in m then Err(AccountNotFound)
    else
      match Withdrawn(m[id], value)
      case Err(e) => Err(e)
      case Ok(b) => Ok(m[id := b])
  }

  /** The agency's transfer on the balances by id: both ids must be
      registered, then the source is debited and the target credited, in
      that order (so a transfer from an account to itself changes nothing). */
  function TransferOn(m: map<int, real>, from: int, to: int, value: real): (r: Result<map<int, real>, LedgerError>)
    ensures from !in m || to !in m ==> r == Err(AccountNotFound)
    ensures from in m && to in m ==> r.ToStatus() == Withdrawn(m[from], value).ToStatus()
    ensures r.Ok? ==> r.value.Keys == m.Keys
    ensures r.Ok? ==> forall j :: j in m && j != from && j != to ==> r.value[j] == m[j]
    ensures r.Ok? && from != to ==> r.value[from] == m[from] - value && r.value[to] == m[to] + value
    ensures r.Ok? && from == to ==> r.value == m
  {
    if from !in m || to !in m then Err(AccountNotFound)
    else
      match Withdrawn(m[from], value)
      case Err(e) => Err(e)
      case Ok(s) =>
        var debited := m[from := s];
        Ok(debited[to := Deposited(debited[to], value).value])
  }

  /** A successful deposit adds exactly its amount to the total. */
  lemma DepositOnTotal(m: map<int, real>, n: int, id: int, value: real)
    requires NumberedBelow(m, n) && DepositOn(m, id, value).Ok?
    ensures SumBelow(DepositOn(m, id, value).value, n) == SumBelow(m, n) + value
  {
    SumBelowUpdate(m, n, id, m[id] + value);
  }

  /** A successful withdrawal takes exactly its amount from the total. */
  lemma WithdrawOnTotal(m: map<int, real>, n: int, id: int, value: real)
    requires NumberedBelow(m, n) && WithdrawOn(m, id, value).Ok?
    ensures SumBelow(WithdrawOn(m, id, value).value, n) == SumBelow(m, n) - value
  {
    SumBelowUpdate(m, n, id, m[id] - value);
  }

  /** Every transfer conserves the total value of the ledger. */
  lemma TransferOnConserves(m: map<int, real>, n: int, from: int, to: int, value: real)
    requires NumberedBelow(m, n)
    ensures TransferOn(m, from, to, value).Ok? ==>
      SumBelow(TransferOn(m, from, to, value).value, n) == SumBelow(m, n)
  {
    if TransferOn(m, from, to, value).Ok? && from != to {
      var debited := m[from := m[from] - value];
      SumBelowUpdate(m, n, from, m[from] - value);
      SumBelowUpdate(debited, n, to, debited[to] + value);
    }
  }

  /** The monthly update of the whole book: every registered account's own
      rule, applied once to its own balance. */
  function MonthlyOn(m: map<int, real>, kinds: map<int, AccountKind>): (r: map<int, real>)
    requires m.Keys <= kinds.Keys
    ensures r.Keys == m.Keys
  {
    map id | id in m :: MonthlyRule(kinds[id], m[id])
  }

  /** A registered client owns exactly the two accounts opened for it, a
      "CC" account and then a "PP" account with the next id, and
      both are filed in `registry` under their ids. */
  ghost predicate OwnsIn(c: Client, clientId: string, registry: map<int, Account>)
    reads c
  {
    && c.clientId == clientId
    && |c.accounts| == 2
    && TypeTag(c.accounts[0].kind) == "CC"
    && TypeTag(c.accounts[1].kind) == "PP"
    && c.accounts[1].id == c.accounts[0].id + 1
    && c.accounts[0].clientId == clientId
    && c.accounts[1].clientId == clientId
    && c.accounts[0].id in registry && registry[c.accounts[0].id] == c.accounts[0]
    && c.accounts[1].id in registry && registry[c.accounts[1].id] == c.accounts[1]
  }

  /** How many of the accounts numbered below n are checking accounts. */
  function CheckingBelow(m: map<int, real>, kinds: map<int, AccountKind>, n: int): nat
    requires m.Keys <= kinds.Keys
    decreases n
  {
    if n <= 1 then 0
    else CheckingBelow(m, kinds, n - 1) + (if n - 1 in m && kinds[n - 1] == Checking then 1 else 0)
  }

  /** The summed balances of the savings accounts numbered below n. */
  function SavingsBelow(m: map<int, real>, kinds: map<int, AccountKind>, n: int): real
    requires m.Keys <= kinds.Keys
    decreases n
  {
    if n <= 1 then 0.0
    else SavingsBelow(m, kinds, n - 1) + (if n - 1 in m && kinds[n - 1] == Savings then m[n - 1] else 0.0)
  }

  /** The monthly update changes the total value of the ledger only by the
      fees of the checking accounts and the interest of the savings accounts. */
  lemma {:induction false} MonthlyOnTotal(m: map<int, real>, kinds: map<int, AccountKind>, n: int)
    requires m.Keys <= kinds.Keys
    ensures SumBelow(MonthlyOn(m, kinds), n)
         == SumBelow(m, n) - MonthlyFee * CheckingBelow(m, kinds, n) as real
                           + MonthlyInterest * SavingsBelow(m, kinds, n)
    decreases n
  {
    if n > 1 {
      MonthlyOnTotal(m, kinds, n - 1);
    }
  }

  // ---------------------------------------------------------------------
  // The agency
  // ---------------------------------------------------------------------

  class Agency {
    var accounts: map<int, Account>
    var clients: map<string, Client>
    var nextAccountId: int

    /** The ids in use are exactly 1 to nextAccountId - 1, and each names the
        account filed under it; every client owns exactly its two accounts. */
    ghost predicate Valid()
      reads this, clients.Values
    {
      && nextAccountId >= 1
      && (forall id :: id in accounts <==> 1 <= id < nextAccountId)
      && (forall id :: id in accounts ==> accounts[id].id == id)
      && (forall cid :: cid in clients ==> OwnsIn(clients[cid], cid, accounts))
    }

    /** The balance of every registered account, by id. */
    ghost function Balances(): (m: map<int, real>)
      reads this, accounts.Values
      ensures m.Keys == accounts.Keys
    {
      map id | id in accounts :: accounts[id].balance
    }

    /** The kind of every registered account, by id. */
    ghost function Kinds(): (m: map<int, AccountKind>)
      reads this
      ensures m.Keys == accounts.Keys
    {
      map id | id in accounts :: accounts[id].kind
    }

    /** The map of balances is determined key by key. */
    lemma BalancesAre(expected: map<int, real>)
      requires expected.Keys == accounts.Keys
      requires forall j :: j in accounts ==> accounts[j].balance == expected[j]
      ensures Balances() == expected
    {
      assert forall j :: j in expected ==> Balances()[j] == expected[j];
    }

    constructor ()
      ensures Valid()
      ensures accounts == map[] && clients == map[] && nextAccountId == 1
    {
      accounts := map[];
      clients := map[];
      nextAccountId := 1;
    }

    /** The account registered under `id`, if any. */
    function GetAccount(id: int): (r: Option<Account>)
      reads this, clients.Values
      ensures r.Some? <==> id in accounts
      ensures r.Some? ==> r.value == accounts[id]
      ensures r.Some? && Valid() ==> r.value.id == id
    {
      if id in accounts then Some(accounts[id]) else None
    }

    /** Registers a client with a checking account and a savings account,
        numbered with the next two ids; a repeated client id changes nothing. */
    method AddClient(clientId: string, name: string) returns (st: Status<LedgerError>)
      requires Valid()
      modifies this
      ensures Valid()
      ensures old(clientId in clients) ==>
        st == Failed(DuplicateClient) && unchanged(this)
      ensures !old(clientId in clients) ==>
        var n := old(nextAccountId);
        && st == Done
        && nextAccountId == n + 2
        && n !in old(accounts) && n + 1 !in old(accounts)
        && n in accounts && n + 1 in accounts
        && accounts == old(accounts)[n := accounts[n]][n + 1 := accounts[n + 1]]
        && fresh(accounts[n]) && fresh(accounts[n + 1])
        && accounts[n].kind == Checking && accounts[n + 1].kind == Savings
        && accounts[n].clientId == clientId && accounts[n + 1].clientId == clientId
        && accounts[n].balance == 0.0 && accounts[n + 1].balance == 0.0
        && clientId in clients
        && clients == old(clients)[clientId := clients[clientId]]
        && fresh(clients[clientId])
        && clients[clientId].name == name
        && clients[clientId].accounts == [accounts[n], accounts[n + 1]]
      ensures nextAccountId >= old(nextAccountId)
    {
      if clientId in clients {
        return Failed(DuplicateClient);
      }
      var client := new Client(name, clientId);
      clients := clients[clientId := client];

      var cc := OpenAccount(clientId, Checking);
      var pp := OpenAccount(clientId, Savings);
      client.AddAccount(cc);
      client.AddAccount(pp);
      st := Done;
      RegisterKeepsValid(clientId, client);
    }

    /** Filing a new client that owns two new accounts numbered with the
        next two ids keeps the agency valid. */
    twostate lemma RegisterKeepsValid(clientId: string, new client: Client)
      requires old(Valid())
      requires clientId !in old(clients) && clients == old(clients)[clientId := client]
      requires nextAccountId == old(nextAccountId) + 2
      requires OwnsIn(client, clientId, accounts) && client.accounts[0].id == old(nextAccountId)
      requires accounts == old(accounts)[client.accounts[0].id := client.accounts[0]][client.accounts[1].id := client.accounts[1]]
      requires forall cid :: cid in old(clients) ==> unchanged(old(clients)[cid])
      ensures Valid()
    {
      forall cid | cid in clients
        ensures OwnsIn(clients[cid], cid, accounts)
      {
        if cid != clientId {
          var c := old(clients)[cid];
          assert old(OwnsIn(c, cid, accounts));
          assert c.accounts[0].id < old(nextAccountId) && c.accounts[1].id < old(nextAccountId);
        }
      }
    }

    /** One step of AddClient, not an operation of its own: creates an empty
        account of the given kind under the next id and files it in the
        registry. AddClient attaches the account to its client before
        returning, which is what keeps every account owned. */
    method OpenAccount(clientId: string, kind: AccountKind) returns (acc: Account)
      modifies this
      ensures fresh(acc) && acc.id == old(nextAccountId) && acc.balance == 0.0
      ensures acc.clientId == clientId && acc.kind == kind
      ensures nextAccountId == old(nextAccountId) + 1
      ensures accounts == old(accounts)[acc.id := acc] && clients == old(clients)
    {
      acc := new Account(nextAccountId, clientId, kind);
      nextAccountId := nextAccountId + 1;
      accounts := accounts[acc.id := acc];
    }

    method Deposit(id: int, value: real) returns (st: Status<LedgerError>)
      requires Valid()
      modifies accounts.Values
      ensures Valid()
      ensures Settled(DepositOn(old(Balances()), id, value), old(Balances()), Balances(), st)
    {
      var acc := GetAccount(id);
      if acc.None? {
        return Failed(AccountNotFound);
      }
      ghost var before := Balances();
      st := acc.value.Deposit(value);
      forall j | j in accounts && j != id
        ensures accounts[j].balance == before[j]
      {
        assert accounts[j].id == j;
      }
      assert Balances() == if st.Done? then before[id := acc.value.balance] else before;
    }

    method Withdraw(id: int, value: real) returns (st: Status<LedgerError>)
      requires Valid()
      modifies accounts.Values
      ensures Valid()
      ensures Settled(WithdrawOn(old(Balances()), id, value), old(Balances()), Balances(), st)
    {
      var acc := GetAccount(id);
      if acc.None? {
        return Failed(AccountNotFound);
      }
      ghost var before := Balances();
      st := acc.value.Withdraw(value);
      forall j | j in accounts && j != id
        ensures accounts[j].balance == before[j]
      {
        assert accounts[j].id == j;
      }
      assert Balances() == if st.Done? then before[id := acc.value.balance] else before;
    }

    /** Transfers between two registered accounts; the total value of the
        ledger is the same afterwards, whatever the outcome. */
    method Transfer(from: int, to: int, value: real) returns (st: Status<LedgerError>)
      requires Valid()
      modifies accounts.Values
      ensures Valid()
      ensures Settled(TransferOn(old(Balances()), from, to, value), old(Balances()), Balances(), st)
      ensures SumBelow(Balances(), nextAccountId) == old(SumBelow(Balances(), nextAccountId))
    {
      TransferOnConserves(Balances(), nextAccountId, from, to, value);
      var src := GetAccount(from);
      var dst := GetAccount(to);
      if src.None? || dst.None? {
        return Failed(AccountNotFound);
      }
      ghost var before := Balances();
      st := src.value.Transfer(dst.value, value);
      ghost var expected := if st.Done? then TransferOn(before, from, to, value).value else before;
      forall j | j in accounts
        ensures accounts[j].balance == expected[j]
      {
        if j != from && j != to {
          assert accounts[j].id == j;
        }
      }
      BalancesAre(expected);
    }

    /** Applies each registered account's monthly rule exactly once; the
        order of the registry does not matter. */
    method UpdateMonthly()
      requires Valid()
      modifies accounts.Values
      ensures Valid()
      ensures Balances() == MonthlyOn(old(Balances()), Kinds())
    {
      for id := 1 to nextAccountId
        invariant forall j :: 1 <= j < id ==>
          accounts[j].balance == MonthlyRule(accounts[j].kind, old(accounts[j].balance))
        invariant forall j :: id <= j < nextAccountId ==> accounts[j].balance == old(accounts[j].balance)
      {
        accounts[id].UpdateMonthly();
      }
    }
  }
}

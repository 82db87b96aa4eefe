/** Sequences of ledger actions, as the interface invokes them one after
    another, and four worked example sessions. */
module Sessions {
  import opened Types
  import opened Dashboard
  import opened Ledger
  import opened Bookkeeping
  import T = Transitions

  /** One call of an action, with the identifier and timestamp the hook would
      generate passed in. */
  datatype Action =
    | InternalTransfer(fromId: AccountType, toId: AccountType, amount: int, txId: string, date: string)
    | NewClient(newId: string, name: string)
    | Sale(clientId: string, amount: int, description: string, txId: string, date: string)
    | Collection(clientId: string, accountId: AccountType, amount: int, txId: string, date: string)
    | NewSupplier(newId: string, name: string)
    | Purchase(supplierId: string, amount: int, description: string, txId: string, date: string)
    | Payment(supplierId: string, accountId: AccountType, amount: int, txId: string, date: string)

  /** Whether the action logs a transaction record (every one but the two "add"s). */
  predicate Logs(a: Action)
  {
    !(a.NewClient? || a.NewSupplier?)
  }

  /** The state after one action; a recorded action prepends one record and
      keeps the older ones, an unrecorded one leaves the log alone. */
  function Apply(d: FinanceData, a: Action): (r: FinanceData)
    ensures AccountIds(r.accounts) == AccountIds(d.accounts)
    ensures Logs(a) ==> |r.transactions| == |d.transactions| + 1 && r.transactions[1..] == d.transactions
    ensures !Logs(a) ==> r.transactions == d.transactions
  {
    match a
    case InternalTransfer(f, t, amount, txId, date) => T.TransferInternal(d, f, t, amount, txId, date)
    case NewClient(newId, name) => T.AddClient(d, newId, name)
    case Sale(c, amount, desc, txId, date) => T.RegisterSale(d, c, amount, desc, txId, date)
    case Collection(c, acc, amount, txId, date) => T.CollectPayment(d, c, acc, amount, txId, date)
    case NewSupplier(newId, name) => T.AddSupplier(d, newId, name)
    case Purchase(s, amount, desc, txId, date) => T.RegisterPurchase(d, s, amount, desc, txId, date)
    case Payment(s, acc, amount, txId, date) => T.PaySupplier(d, s, acc, amount, txId, date)
  }

  /** The actions applied in order, first to last. */
  function Run(d: FinanceData, actions: seq<Action>): FinanceData
  {
    if actions == [] then d else Apply(Run(d, actions[..|actions| - 1]), actions[|actions| - 1])
  }

  /** How many of the actions log a record. */
  function LoggedCount(actions: seq<Action>): (n: nat)
    ensures n <= |actions|
  {
    if actions == [] then 0
    else LoggedCount(actions[..|actions| - 1]) + (if Logs(actions[|actions| - 1]) then 1 else 0)
  }

  /** Over any run the log grows by one record per recorded action, the
      earlier log survives unchanged at the end (append-only, newest first),
      and the account identifiers never change. */
  lemma {:induction false} RunKeepsLogAndAccounts(d: FinanceData, actions: seq<Action>)
    ensures var r := Run(d, actions);
      |r.transactions| == |d.transactions| + LoggedCount(actions)
      && r.transactions[LoggedCount(actions)..] == d.transactions
      && AccountIds(r.accounts) == AccountIds(d.accounts)
  {
    if actions != [] {
      var prefix := actions[..|actions| - 1];
      RunKeepsLogAndAccounts(d, prefix);
      var mid := Run(d, prefix);
      var k := LoggedCount(prefix);
      if Logs(actions[|actions| - 1]) {
        var r := Run(d, actions);
        assert r.transactions[k + 1..] == r.transactions[1..][k..];
      }
    }
  }

  /** In every state reached from the initial one, each account type occurs
      exactly once among the accounts. */
  lemma ReachableAccountsOnePerType(actions: seq<Action>, t: AccountType)
    ensures CountAccount(Run(T.InitialData(), actions).accounts, t) == 1
  {
    RunKeepsLogAndAccounts(T.InitialData(), actions);
    CountAccountFollowsIds(Run(T.InitialData(), actions).accounts, InitialAccounts(), t);
    InitialAccountsOnePerType(t);
  }

  /** So in every reachable state, a transfer between two different accounts
      conserves total cash. */
  lemma ReachableTransferConservesCash(actions: seq<Action>, fromId: AccountType, toId: AccountType,
                                       amount: int, txId: string, date: string)
    requires fromId != toId
    ensures var d := Run(T.InitialData(), actions);
      TotalCash(T.TransferInternal(d, fromId, toId, amount, txId, date).accounts) == TotalCash(d.accounts)
  {
    var d := Run(T.InitialData(), actions);
    ReachableAccountsOnePerType(actions, fromId);
    ReachableAccountsOnePerType(actions, toId);
    TransferConservesCash(d, fromId, toId, amount, txId, date);
  }

  /** The state after adding client "c1" named "Acme" to the initial state. */
  function AcmeAdded(): (d: FinanceData)
    ensures d.clients == [Entity("c1", "Acme", 0)] && d.transactions == []
    ensures d.accounts == InitialAccounts()
  {
    T.AddClient(T.InitialData(), "c1", "Acme")
  }

  /** A sale of 1000 to the freshly added client "Acme". */
  lemma SaleScenario()
    ensures var s1 := T.RegisterSale(AcmeAdded(), "c1", 1000, "inv1", "t1", "d1");
      s1.clients == [Entity("c1", "Acme", 1000)]
      && |s1.transactions| == 1
      && s1.transactions[0].kind == ReceivableIncrease && s1.transactions[0].amount == 1000
      && s1.transactions[0].destination == Some("Acme")
  {
  }

  /** After that sale, a collection of 400 from "Acme" into EFECTIVO. */
  lemma CollectionScenario()
    ensures var s2 := T.CollectPayment(T.RegisterSale(AcmeAdded(), "c1", 1000, "inv1", "t1", "d1"),
                                       "c1", Efectivo, 400, "t2", "d2");
      s2.clients == [Entity("c1", "Acme", 600)]
      && s2.accounts[0] == Account(Efectivo, "Caja Efectivo", 400)
      && |s2.transactions| == 2
      && s2.transactions[0].kind == Income && s2.transactions[0].amount == 400
  {
    SaleScenario();
  }

  /** A transfer of 400 from EFECTIVO (holding 400) to CHEQUES
      (holding 0) leaves them at 0 and 400 and total cash unchanged. */
  lemma TransferScenario(d: FinanceData)
    requires AccountIds(d.accounts) == [Efectivo, Cheques, Transferencias]
    requires d.accounts[0].balance == 400 && d.accounts[1].balance == 0
    ensures var r := T.TransferInternal(d, Efectivo, Cheques, 400, "t3", "d3");
      r.accounts[0].balance == 0 && r.accounts[1].balance == 400
      && TotalCash(r.accounts) == TotalCash(d.accounts)
  {
    var ids := AccountIds(d.accounts);
    assert ids[..2][..1] == [Efectivo];
    assert ids[..2] == [Efectivo, Cheques];
    InitialAccountsOnePerType(Efectivo);
    InitialAccountsOnePerType(Cheques);
    CountAccountFollowsIds(d.accounts, InitialAccounts(), Efectivo);
    CountAccountFollowsIds(d.accounts, InitialAccounts(), Cheques);
    TransferConservesCash(d, Efectivo, Cheques, 400, "t3", "d3");
  }

  /** A purchase of 250 from a supplier with balance 0, then a
      payment of 250 from CHEQUES, returns the supplier to 0 and leaves
      CHEQUES 250 lower. */
  lemma PurchaseThenPaymentScenario(d: FinanceData)
    requires d.suppliers == [Entity("s1", "Papelera", 0)]
    requires |d.accounts| == 3 && d.accounts[1].id == Cheques
    ensures var r := T.PaySupplier(T.RegisterPurchase(d, "s1", 250, "bill1", "t4", "d4"), "s1", Cheques, 250, "t5", "d5");
      r.suppliers == [Entity("s1", "Papelera", 0)]
      && r.accounts[1].balance == d.accounts[1].balance - 250
      && |r.transactions| == |d.transactions| + 2
  {
  }
}

/** How each ledger action moves the dashboard totals, and what an
    unresolved client or supplier id does. "Exactly once" preconditions
    (`CountAccount(...) == 1`) hold of every account type in any state
    reached from the initial one (see Sessions.ReachableAccountsOnePerType). */
module Bookkeeping {
  import opened Types
  import opened Dashboard
  import opened Ledger
  import opened Transitions

  /** A transfer debits every `fromId` account and, when the ids differ,
      credits every `toId` account; entity totals do not move. */
  lemma TransferTotals(d: FinanceData, fromId: AccountType, toId: AccountType, amount: int, txId: string, date: string)
    ensures var r := TransferInternal(d, fromId, toId, amount, txId, date);
      TotalCash(r.accounts) == TotalCash(d.accounts) - amount * CountAccount(d.accounts, fromId)
                               + (if fromId != toId then amount * CountAccount(d.accounts, toId) else 0)
      && TotalReceivables(r) == TotalReceivables(d) && TotalPayables(r) == TotalPayables(d)
  {
    TotalCashAfterTransfer(d.accounts, fromId, toId, amount);
    TimesIsProduct(amount, CountAccount(d.accounts, fromId));
    TimesIsProduct(amount, CountAccount(d.accounts, toId));
  }

  /** Between two different accounts that each occur once, a transfer
      conserves total cash and net worth. */
  lemma TransferConservesCash(d: FinanceData, fromId: AccountType, toId: AccountType, amount: int, txId: string, date: string)
    requires fromId != toId
    requires CountAccount(d.accounts, fromId) == 1 && CountAccount(d.accounts, toId) == 1
    ensures var r := TransferInternal(d, fromId, toId, amount, txId, date);
      TotalCash(r.accounts) == TotalCash(d.accounts) && NetWorth(r) == NetWorth(d)
  {
    TransferTotals(d, fromId, toId, amount, txId, date);
  }

  /** A transfer from an account to itself only debits it: total cash
      drops by `amount`. */
  lemma TransferToSelfOnlyDebits(d: FinanceData, id: AccountType, amount: int, txId: string, date: string)
    requires CountAccount(d.accounts, id) == 1
    ensures var r := TransferInternal(d, id, id, amount, txId, date);
      TotalCash(r.accounts) == TotalCash(d.accounts) - amount
      && (forall i :: 0 <= i < |d.accounts| && d.accounts[i].id == id ==>
            r.accounts[i].balance == d.accounts[i].balance - amount)
  {
    TransferTotals(d, id, id, amount, txId, date);
  }

  /** Adding a client or a supplier moves no total. */
  lemma AddEntityKeepsTotals(d: FinanceData, newId: string, name: string)
    ensures var r := AddClient(d, newId, name);
      TotalCash(r.accounts) == TotalCash(d.accounts) && TotalReceivables(r) == TotalReceivables(d)
      && TotalPayables(r) == TotalPayables(d)
    ensures var r := AddSupplier(d, newId, name);
      TotalCash(r.accounts) == TotalCash(d.accounts) && TotalReceivables(r) == TotalReceivables(d)
      && TotalPayables(r) == TotalPayables(d)
  {
    EntityTotalAppend(d.clients, Entity(newId, name, 0));
    EntityTotalAppend(d.suppliers, Entity(newId, name, 0));
  }

  /** A sale raises receivables by `amount` per matching client and touches
      no account; with one matching client net worth rises by `amount`. */
  lemma SaleTotals(d: FinanceData, clientId: string, amount: int, description: string, txId: string, date: string)
    ensures var r := RegisterSale(d, clientId, amount, description, txId, date);
      TotalCash(r.accounts) == TotalCash(d.accounts)
      && TotalReceivables(r) == TotalReceivables(d) + amount * CountEntity(d.clients, clientId)
      && TotalPayables(r) == TotalPayables(d)
    ensures CountEntity(d.clients, clientId) == 1 ==>
      NetWorth(RegisterSale(d, clientId, amount, description, txId, date)) == NetWorth(d) + amount
  {
    EntityTotalAfterAdjust(d.clients, clientId, amount);
    TimesIsProduct(amount, CountEntity(d.clients, clientId));
  }

  /** A purchase raises payables by `amount` per matching supplier and
      touches no account; with one matching supplier net worth drops by
      `amount`. */
  lemma PurchaseTotals(d: FinanceData, supplierId: string, amount: int, description: string, txId: string, date: string)
    ensures var r := RegisterPurchase(d, supplierId, amount, description, txId, date);
      TotalCash(r.accounts) == TotalCash(d.accounts) && TotalReceivables(r) == TotalReceivables(d)
      && TotalPayables(r) == TotalPayables(d) + amount * CountEntity(d.suppliers, supplierId)
    ensures CountEntity(d.suppliers, supplierId) == 1 ==>
      NetWorth(RegisterPurchase(d, supplierId, amount, description, txId, date)) == NetWorth(d) - amount
  {
    EntityTotalAfterAdjust(d.suppliers, supplierId, amount);
    TimesIsProduct(amount, CountEntity(d.suppliers, supplierId));
  }

  /** A collection moves `amount` from receivables into cash. */
  lemma CollectTotals(d: FinanceData, clientId: string, accountId: AccountType, amount: int, txId: string, date: string)
    ensures var r := CollectPayment(d, clientId, accountId, amount, txId, date);
      TotalCash(r.accounts) == TotalCash(d.accounts) + amount * CountAccount(d.accounts, accountId)
      && TotalReceivables(r) == TotalReceivables(d) - amount * CountEntity(d.clients, clientId)
      && TotalPayables(r) == TotalPayables(d)
  {
    var r := CollectPayment(d, clientId, accountId, amount, txId, date);
    assert TotalCash(r.accounts) == TotalCash(d.accounts) + amount * CountAccount(d.accounts, accountId) by {
      TotalCashAfterAdjust(d.accounts, accountId, amount);
      TimesIsProduct(amount, CountAccount(d.accounts, accountId));
    }
    assert TotalReceivables(r) == TotalReceivables(d) - amount * CountEntity(d.clients, clientId) by {
      EntityTotalAfterDebit(d.clients, clientId, amount);
      TimesIsProduct(amount, CountEntity(d.clients, clientId));
    }
  }

  /** Collecting from a known client into an account that occurs once keeps
      current assets (cash plus receivables) and net worth. */
  lemma CollectKeepsCurrentAssets(d: FinanceData, clientId: string, accountId: AccountType, amount: int, txId: string, date: string)
    requires CountAccount(d.accounts, accountId) == 1 && CountEntity(d.clients, clientId) == 1
    ensures var r := CollectPayment(d, clientId, accountId, amount, txId, date);
      CurrentAssets(r) == CurrentAssets(d) && NetWorth(r) == NetWorth(d)
      && TotalCash(r.accounts) == TotalCash(d.accounts) + amount
  {
    CollectTotals(d, clientId, accountId, amount, txId, date);
  }

  /** A payment takes `amount` out of cash and out of payables. */
  lemma PayTotals(d: FinanceData, supplierId: string, accountId: AccountType, amount: int, txId: string, date: string)
    ensures var r := PaySupplier(d, supplierId, accountId, amount, txId, date);
      TotalCash(r.accounts) == TotalCash(d.accounts) - amount * CountAccount(d.accounts, accountId)
      && TotalReceivables(r) == TotalReceivables(d)
      && TotalPayables(r) == TotalPayables(d) - amount * CountEntity(d.suppliers, supplierId)
  {
    var r := PaySupplier(d, supplierId, accountId, amount, txId, date);
    assert TotalCash(r.accounts) == TotalCash(d.accounts) - amount * CountAccount(d.accounts, accountId) by {
      TotalCashAfterDebit(d.accounts, accountId, amount);
      TimesIsProduct(amount, CountAccount(d.accounts, accountId));
    }
    assert TotalPayables(r) == TotalPayables(d) - amount * CountEntity(d.suppliers, supplierId) by {
      EntityTotalAfterDebit(d.suppliers, supplierId, amount);
      TimesIsProduct(amount, CountEntity(d.suppliers, supplierId));
    }
  }

  /** Paying a known supplier from an account that occurs once keeps cash
      minus payables, and so net worth. */
  lemma PayKeepsNetWorth(d: FinanceData, supplierId: string, accountId: AccountType, amount: int, txId: string, date: string)
    requires CountAccount(d.accounts, accountId) == 1 && CountEntity(d.suppliers, supplierId) == 1
    ensures var r := PaySupplier(d, supplierId, accountId, amount, txId, date);
      TotalCash(r.accounts) - TotalPayables(r) == TotalCash(d.accounts) - TotalPayables(d)
      && NetWorth(r) == NetWorth(d) && TotalCash(r.accounts) == TotalCash(d.accounts) - amount
  {
    PayTotals(d, supplierId, accountId, amount, txId, date);
  }

  /** An unknown client id leaves every client as it was and names the
      placeholder, while the account change and the record still happen. */
  lemma UnknownClientFallsBack(d: FinanceData, clientId: string, accountId: AccountType, amount: int,
                               description: string, txId: string, date: string)
    requires forall i :: 0 <= i < |d.clients| ==> d.clients[i].id != clientId
    ensures var r := RegisterSale(d, clientId, amount, description, txId, date);
      r.clients == d.clients && r.transactions[0].destination == Some("Cliente")
      && |r.transactions| == |d.transactions| + 1
    ensures var r := CollectPayment(d, clientId, accountId, amount, txId, date);
      r.clients == d.clients && r.transactions[0].source == Some("Cliente")
      && r.accounts == AdjustAccounts(d.accounts, accountId, amount)
      && |r.transactions| == |d.transactions| + 1
  {
  }

  /** An unknown supplier id leaves every supplier as it was and names the
      placeholder, while the account change and the record still happen. */
  lemma UnknownSupplierFallsBack(d: FinanceData, supplierId: string, accountId: AccountType, amount: int,
                                 description: string, txId: string, date: string)
    requires forall i :: 0 <= i < |d.suppliers| ==> d.suppliers[i].id != supplierId
    ensures var r := RegisterPurchase(d, supplierId, amount, description, txId, date);
      r.suppliers == d.suppliers && r.transactions[0].source == Some("Proveedor")
      && |r.transactions| == |d.transactions| + 1
    ensures var r := PaySupplier(d, supplierId, accountId, amount, txId, date);
      r.suppliers == d.suppliers && r.transactions[0].destination == Some("Proveedor")
      && r.accounts == AdjustAccounts(d.accounts, accountId, -amount)
      && |r.transactions| == |d.transactions| + 1
  {
  }

  /** A client whose name is empty is recorded under the placeholder, yet its
      balance still moves. */
  lemma BlankClientNameFallsBack(d: FinanceData, k: nat, amount: int, description: string, txId: string, date: string)
    requires k < |d.clients| && d.clients[k].name == ""
    requires forall j :: 0 <= j < k ==> d.clients[j].id != d.clients[k].id
    ensures var r := RegisterSale(d, d.clients[k].id, amount, description, txId, date);
      r.transactions[0].destination == Some("Cliente")
      && r.clients[k].balance == d.clients[k].balance + amount
  {
  }
}

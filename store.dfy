/** The hook's single mutable store. Each action performs, in order, the
    list rewrite (first `setData`) and then the prepend of its record
    (second `setData`, through AddTransaction); the counterpart name is read
    from the snapshot taken before the first assignment. */
module Store {
  import opened Types
  import opened Dashboard
  import opened Ledger
  import Transitions
  import Bookkeeping

  class FinanceStore {
    var data: FinanceData

    /** Starts from the saved snapshot if there is one, else from the
        initial state. */
    constructor (saved: Option<FinanceData>)
      ensures data == (if saved.Some? then saved.value else Transitions.InitialData())
    {
      data := if saved.Some? then saved.value else Transitions.InitialData();
    }

    method AddTransaction(t: Transaction)
      modifies this
      ensures data == Transitions.AddTransaction(old(data), t)
      ensures data.transactions == [t] + old(data.transactions)
    {
      data := data.(transactions := [t] + data.transactions);
    }

    method TransferInternal(fromId: AccountType, toId: AccountType, amount: int, txId: string, date: string)
      modifies this
      ensures data == Transitions.TransferInternal(old(data), fromId, toId, amount, txId, date)
      ensures fromId != toId && CountAccount(old(data.accounts), fromId) == 1 && CountAccount(old(data.accounts), toId) == 1
              ==> TotalCash(data.accounts) == TotalCash(old(data.accounts))
    {
      ghost var before := data;
      data := data.(accounts := TransferAccounts(data.accounts, fromId, toId, amount));
      AddTransaction(Transaction(txId, date, Transfer, amount, "Transferencia Interna",
                                 Some(AccountIdText(fromId)), Some(AccountIdText(toId))));
      if fromId != toId && CountAccount(before.accounts, fromId) == 1 && CountAccount(before.accounts, toId) == 1 {
        Bookkeeping.TransferConservesCash(before, fromId, toId, amount, txId, date);
      }
    }

    method AddClient(newId: string, name: string)
      modifies this
      ensures data == Transitions.AddClient(old(data), newId, name)
    {
      var newClient := Entity(newId, name, 0);
      data := data.(clients := data.clients + [newClient]);
    }

    method RegisterSale(clientId: string, amount: int, description: string, txId: string, date: string)
      modifies this
      ensures data == Transitions.RegisterSale(old(data), clientId, amount, description, txId, date)
      ensures data.accounts == old(data.accounts)
    {
      var snapshot := data;
      data := data.(clients := AdjustEntities(data.clients, clientId, amount));
      var clientName := CounterpartName(snapshot.clients, clientId, Transitions.ClientPlaceholder);
      AddTransaction(Transaction(txId, date, ReceivableIncrease, amount, "Venta: " + description,
                                 None, Some(clientName)));
    }

    method CollectPayment(clientId: string, accountId: AccountType, amount: int, txId: string, date: string)
      modifies this
      ensures data == Transitions.CollectPayment(old(data), clientId, accountId, amount, txId, date)
      ensures CountAccount(old(data.accounts), accountId) == 1 && CountEntity(old(data.clients), clientId) == 1
              ==> CurrentAssets(data) == CurrentAssets(old(data))
    {
      var snapshot := data;
      data := data.(clients := AdjustEntities(data.clients, clientId, -amount),
                    accounts := AdjustAccounts(data.accounts, accountId, amount));
      var clientName := CounterpartName(snapshot.clients, clientId, Transitions.ClientPlaceholder);
      AddTransaction(Transaction(txId, date, Income, amount, "Cobro a Cliente",
                                 Some(clientName), Some(AccountIdText(accountId))));
      if CountAccount(snapshot.accounts, accountId) == 1 && CountEntity(snapshot.clients, clientId) == 1 {
        Bookkeeping.CollectKeepsCurrentAssets(snapshot, clientId, accountId, amount, txId, date);
      }
    }

    method AddSupplier(newId: string, name: string)
      modifies this
      ensures data == Transitions.AddSupplier(old(data), newId, name)
    {
      var newSupplier := Entity(newId, name, 0);
      data := data.(suppliers := data.suppliers + [newSupplier]);
    }

    method RegisterPurchase(supplierId: string, amount: int, description: string, txId: string, date: string)
      modifies this
      ensures data == Transitions.RegisterPurchase(old(data), supplierId, amount, description, txId, date)
      ensures data.accounts == old(data.accounts)
    {
      var snapshot := data;
      data := data.(suppliers := AdjustEntities(data.suppliers, supplierId, amount));
      var supplierName := CounterpartName(snapshot.suppliers, supplierId, Transitions.SupplierPlaceholder);
      AddTransaction(Transaction(txId, date, DebtIncrease, amount, "Factura: " + description,
                                 Some(supplierName), None));
    }

    method PaySupplier(supplierId: string, accountId: AccountType, amount: int, txId: string, date: string)
      modifies this
      ensures data == Transitions.PaySupplier(old(data), supplierId, accountId, amount, txId, date)
      ensures CountAccount(old(data.accounts), accountId) == 1 && CountEntity(old(data.suppliers), supplierId) == 1
              ==> TotalCash(data.accounts) - TotalPayables(data) == TotalCash(old(data.accounts)) - TotalPayables(old(data))
    {
      var snapshot := data;
      data := data.(suppliers := AdjustEntities(data.suppliers, supplierId, -amount),
                    accounts := AdjustAccounts(data.accounts, accountId, -amount));
      var supplierName := CounterpartName(snapshot.suppliers, supplierId, Transitions.SupplierPlaceholder);
      AddTransaction(Transaction(txId, date, Expense, amount, "Pago a Proveedor",
                                 Some(AccountIdText(accountId)), Some(supplierName)));
      if CountAccount(snapshot.accounts, accountId) == 1 && CountEntity(snapshot.suppliers, supplierId) == 1 {
        Bookkeeping.PayKeepsNetWorth(snapshot, supplierId, accountId, amount, txId, date);
      }
    }
  }
}

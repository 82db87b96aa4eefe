/** The seven ledger actions as functions from the state before the action to
    the state after it. Each first rewrites one or two lists and then (all but
    the two "add" actions) prepends exactly one transaction record. The
    counterpart name is looked up in the state before the action. */
module Transitions {
  import opened Types
  import opened Ledger

  const ClientPlaceholder := "Cliente"
  const SupplierPlaceholder := "Proveedor"

  /** The state used when nothing was saved: the three initial accounts and
      empty client, supplier and transaction lists. */
  function InitialData(): (d: FinanceData)
    ensures AccountIds(d.accounts) == [Efectivo, Cheques, Transferencias]
    ensures forall i :: 0 <= i < |d.accounts| ==> d.accounts[i].balance == 0
    ensures d.clients == [] && d.suppliers == [] && d.transactions == []
  {
    FinanceData(InitialAccounts(), [], [], [])
  }

  /** Prepends a record to the log, newest first; nothing else changes. */
  function AddTransaction(d: FinanceData, t: Transaction): (r: FinanceData)
    ensures r.accounts == d.accounts && r.clients == d.clients && r.suppliers == d.suppliers
    ensures |r.transactions| == |d.transactions| + 1
    ensures r.transactions[0] == t
    ensures r.transactions[1..] == d.transactions
  {
    d.(transactions := [t] + d.transactions)
  }

  function TransferInternal(d: FinanceData, fromId: AccountType, toId: AccountType, amount: int,
                            txId: string, date: string): (r: FinanceData)
    ensures r.clients == d.clients && r.suppliers == d.suppliers
    ensures r.accounts == TransferAccounts(d.accounts, fromId, toId, amount)
    ensures AccountIds(r.accounts) == AccountIds(d.accounts)
    ensures |r.transactions| == |d.transactions| + 1 && r.transactions[1..] == d.transactions
    ensures r.transactions[0] == Transaction(txId, date, Transfer, amount, "Transferencia Interna",
                                             Some(AccountIdText(fromId)), Some(AccountIdText(toId)))
  {
    var moved := d.(accounts := TransferAccounts(d.accounts, fromId, toId, amount));
    AddTransaction(moved, Transaction(txId, date, Transfer, amount, "Transferencia Interna",
                                      Some(AccountIdText(fromId)), Some(AccountIdText(toId))))
  }

  /** Appends a client with balance 0; no name check, no record. */
  function AddClient(d: FinanceData, newId: string, name: string): (r: FinanceData)
    ensures |r.clients| == |d.clients| + 1
    ensures r.clients[..|d.clients|] == d.clients
    ensures r.clients[|d.clients|] == Entity(newId, name, 0)
    ensures r.accounts == d.accounts && r.suppliers == d.suppliers && r.transactions == d.transactions
  {
    d.(clients := d.clients + [Entity(newId, name, 0)])
  }

  function RegisterSale(d: FinanceData, clientId: string, amount: int, description: string,
                        txId: string, date: string): (r: FinanceData)
    ensures r.accounts == d.accounts && r.suppliers == d.suppliers
    ensures r.clients == AdjustEntities(d.clients, clientId, amount)
    ensures |r.transactions| == |d.transactions| + 1 && r.transactions[1..] == d.transactions
    ensures r.transactions[0] == Transaction(txId, date, ReceivableIncrease, amount, "Venta: " + description,
                                             None, Some(CounterpartName(d.clients, clientId, ClientPlaceholder)))
  {
    var clientName := CounterpartName(d.clients, clientId, ClientPlaceholder);
    var billed := d.(clients := AdjustEntities(d.clients, clientId, amount));
    AddTransaction(billed, Transaction(txId, date, ReceivableIncrease, amount, "Venta: " + description,
                                       None, Some(clientName)))
  }

  function CollectPayment(d: FinanceData, clientId: string, accountId: AccountType, amount: int,
                          txId: string, date: string): (r: FinanceData)
    ensures r.suppliers == d.suppliers
    ensures r.clients == AdjustEntities(d.clients, clientId, -amount)
    ensures r.accounts == AdjustAccounts(d.accounts, accountId, amount)
    ensures AccountIds(r.accounts) == AccountIds(d.accounts)
    ensures |r.transactions| == |d.transactions| + 1 && r.transactions[1..] == d.transactions
    ensures r.transactions[0] == Transaction(txId, date, Income, amount, "Cobro a Cliente",
                                             Some(CounterpartName(d.clients, clientId, ClientPlaceholder)),
                                             Some(AccountIdText(accountId)))
  {
    var clientName := CounterpartName(d.clients, clientId, ClientPlaceholder);
    var collected := d.(clients := AdjustEntities(d.clients, clientId, -amount),
                        accounts := AdjustAccounts(d.accounts, accountId, amount));
    AddTransaction(collected, Transaction(txId, date, Income, amount, "Cobro a Cliente",
                                          Some(clientName), Some(AccountIdText(accountId))))
  }

  /** Appends a supplier with balance 0; no name check, no record. */
  function AddSupplier(d: FinanceData, newId: string, name: string): (r: FinanceData)
    ensures |r.suppliers| == |d.suppliers| + 1
    ensures r.suppliers[..|d.suppliers|] == d.suppliers
    ensures r.suppliers[|d.suppliers|] == Entity(newId, name, 0)
    ensures r.accounts == d.accounts && r.clients == d.clients && r.transactions == d.transactions
  {
    d.(suppliers := d.suppliers + [Entity(newId, name, 0)])
  }

  function RegisterPurchase(d: FinanceData, supplierId: string, amount: int, description: string,
                            txId: string, date: string): (r: FinanceData)
    ensures r.accounts == d.accounts && r.clients == d.clients
    ensures r.suppliers == AdjustEntities(d.suppliers, supplierId, amount)
    ensures |r.transactions| == |d.transactions| + 1 && r.transactions[1..] == d.transactions
    ensures r.transactions[0] == Transaction(txId, date, DebtIncrease, amount, "Factura: " + description,
                                             Some(CounterpartName(d.suppliers, supplierId, SupplierPlaceholder)), None)
  {
    var supplierName := CounterpartName(d.suppliers, supplierId, SupplierPlaceholder);
    var billed := d.(suppliers := AdjustEntities(d.suppliers, supplierId, amount));
    AddTransaction(billed, Transaction(txId, date, DebtIncrease, amount, "Factura: " + description,
                                       Some(supplierName), None))
  }

  function PaySupplier(d: FinanceData, supplierId: string, accountId: AccountType, amount: int,
                       txId: string, date: string): (r: FinanceData)
    ensures r.clients == d.clients
    ensures r.suppliers == AdjustEntities(d.suppliers, supplierId, -amount)
    ensures r.accounts == AdjustAccounts(d.accounts, accountId, -amount)
    ensures AccountIds(r.accounts) == AccountIds(d.accounts)
    ensures |r.transactions| == |d.transactions| + 1 && r.transactions[1..] == d.transactions
    ensures r.transactions[0] == Transaction(txId, date, Expense, amount, "Pago a Proveedor",
                                             Some(AccountIdText(accountId)),
                                             Some(CounterpartName(d.suppliers, supplierId, SupplierPlaceholder)))
  {
    var supplierName := CounterpartName(d.suppliers, supplierId, SupplierPlaceholder);
    var paid := d.(suppliers := AdjustEntities(d.suppliers, supplierId, -amount),
                   accounts := AdjustAccounts(d.accounts, accountId, -amount));
    AddTransaction(paid, Transaction(txId, date, Expense, amount, "Pago a Proveedor",
                                     Some(AccountIdText(accountId)), Some(supplierName)))
  }
}

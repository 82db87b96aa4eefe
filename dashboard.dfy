/** The aggregate figures the dashboard derives from the ledger state: each
    total is a left fold from 0 over a list's balances, like `reduce`. */
module Dashboard {
  import opened Types

  /** Sum of account balances ("Saldo en Cajas"). */
  function TotalCash(accs: seq<Account>): (r: int)
    ensures accs == [] ==> r == 0
  {
    if accs == [] then 0
    else TotalCash(accs[..|accs| - 1]) + accs[|accs| - 1].balance
  }

  /** Sum of entity balances: receivables over the clients, payables over
      the suppliers. */
  function EntityTotal(es: seq<Entity>): (r: int)
    ensures es == [] ==> r == 0
  {
    if es == [] then 0
    else EntityTotal(es[..|es| - 1]) + es[|es| - 1].balance
  }

  /** "A Cobrar (Clientes)": what the clients owe, folded over the client list. */
  function TotalReceivables(d: FinanceData): (r: int)
    ensures d.clients == [] ==> r == 0
    ensures d.clients != [] ==>
      r == EntityTotal(d.clients[..|d.clients| - 1]) + d.clients[|d.clients| - 1].balance
  {
    EntityTotal(d.clients)
  }

  /** "A Pagar (Proveedores)": what is owed to suppliers, folded over the supplier list. */
  function TotalPayables(d: FinanceData): (r: int)
    ensures d.suppliers == [] ==> r == 0
    ensures d.suppliers != [] ==>
      r == EntityTotal(d.suppliers[..|d.suppliers| - 1]) + d.suppliers[|d.suppliers| - 1].balance
  {
    EntityTotal(d.suppliers)
  }

  /** "Activo Corriente": cash plus receivables. */
  function CurrentAssets(d: FinanceData): (r: int)
    ensures d.clients == [] ==> r == TotalCash(d.accounts)
    ensures d.accounts == [] ==> r == TotalReceivables(d)
  {
    TotalCash(d.accounts) + TotalReceivables(d)
  }

  /** "Patrimonio Neto": cash plus receivables minus payables, that is,
      current assets minus current liabilities. */
  function NetWorth(d: FinanceData): (r: int)
    ensures r == CurrentAssets(d) - TotalPayables(d)
    ensures d.suppliers == [] ==> r == CurrentAssets(d)
  {
    TotalCash(d.accounts) + TotalReceivables(d) - TotalPayables(d)
  }

  /** Appending one entity adds exactly its balance to the total. */
  lemma EntityTotalAppend(es: seq<Entity>, e: Entity)
    ensures EntityTotal(es + [e]) == EntityTotal(es) + e.balance
  {
  }
}

# Ledger engine of a small bookkeeping app, in Dafny

The app keeps one `FinanceData` value. It holds three cash accounts (EFECTIVO,
CHEQUES, TRANSFERENCIAS), a client list, a supplier list, and a transaction log
kept newest-first. Seven actions change it: `transferInternal`, `addClient`,
`registerSale`, `collectPayment`, `addSupplier`, `registerPurchase` and
`paySupplier`. Each action first rewrites the matching elements of one or two
lists. All but the two "add" actions then prepend one transaction record. The
dashboard derives four figures from the state: total cash, receivables,
payables and net worth.

This project models:

- the data model (`Types`, types.ts);
- the list rewrites and the counterpart-name lookup (`Ledger`);
- each action as a pure next-state function (`Transitions`);
- the hook's mutable store as a class (`Store.FinanceStore`). Each method
  performs the two updates in the source's order and is proved equal to its
  transition function;
- the dashboard folds (`Dashboard`);
- how every action moves those totals, and what an unresolved id does
  (`Bookkeeping`);
- whole sequences of actions, and four worked example sessions (`Sessions`).

Quirks of the code are kept:

- A transfer from an account to itself only debits it, because the `fromId`
  test comes first.
- The counterpart name is read from the state before the action.
- An unknown id, or an entity whose name is empty, is recorded as `Cliente` or
  `Proveedor`. The account change and the record still happen.
- `addClient` and `addSupplier` accept any name, including a blank one. The
  blank check lives only in the views (views/Clients.tsx:34,
  views/Suppliers.tsx:34). The model follows the hook.

An account's display `label` is the field `title` here, because `label` is a
reserved word in Dafny. Amounts and balances are mathematical integers.
When an id occurs `n` times in a list, an action moves the totals by
`amount * n`. The induction over the list counts with a helper, `Times(k, n)`
(`k` added `n` times), and a helper lemma turns it into the product. In every state reachable from the initial one, each
account type occurs exactly once (`Sessions.ReachableAccountsOnePerType`).

## Model

| member | source | states |
|---|---|---|
| Types.AccountIdText | types.ts:1 | each account type has its own non-empty stored identifier |
| Types.AccountIdTextInjective | types.ts:1 | two account types share an identifier only if they are the same type |
| Types.TypeTag | types.ts:18 | each of the five transaction kinds has a non-empty stored tag |
| Types.TypeTagInjective | types.ts:18 | the five tags are pairwise distinct |
| Types.InitialAccounts | types.ts:32-36 | three accounts with ids EFECTIVO, CHEQUES, TRANSFERENCIAS in that order, pairwise-distinct ids, every balance 0 |
| Types.InitialAccountsOnePerType | types.ts:32-36 | every account type occurs exactly once among the initial accounts |
| Dashboard.TotalCash | views/Dashboard.tsx:11 | sum of account balances as a left fold from 0; 0 for an empty list |
| Dashboard.EntityTotal | views/Dashboard.tsx:12-13 | sum of client (receivables) or supplier (payables) balances; 0 for an empty list |
| Dashboard.TotalReceivables | views/Dashboard.tsx:12 | receivables are the fold of the client balances: 0 with no clients, otherwise the fold of all but the last client plus the last one's balance |
| Dashboard.TotalPayables | views/Dashboard.tsx:13 | payables are the same fold over the supplier balances |
| Dashboard.CurrentAssets | views/Dashboard.tsx:87 | current assets are cash plus receivables: just the cash with no clients, just the receivables with no accounts |
| Dashboard.EntityTotalAppend | views/Dashboard.tsx:12-13 | appending an entity adds exactly its balance to the total |
| Dashboard.NetWorth | views/Dashboard.tsx:14 | net worth is current assets (cash + receivables, views/Dashboard.tsx:87) minus payables; with no suppliers it equals current assets |
| Ledger.TransferOne | hooks/useFinance.ts:32-36 | the `fromId` account loses `amount`; the `toId` account gains it only when the ids differ; any other account is unchanged; id and title never change |
| Ledger.TransferAccounts | hooks/useFinance.ts:32-36 | the list keeps its length and order, and every account is rewritten as TransferOne says |
| Ledger.AdjustOne | hooks/useFinance.ts:77 | an account with the id moves by `delta` (`+amount` on collection, `-amount` on payment, line 117); any other account is unchanged |
| Ledger.AdjustAccounts | hooks/useFinance.ts:77 | the account list keeps length and order, and every account is rewritten as AdjustOne says |
| Ledger.AdjustEntity | hooks/useFinance.ts:60 | an entity with the id moves by `delta`; id and name never change; any other entity is unchanged |
| Ledger.AdjustEntities | hooks/useFinance.ts:60 | every entity is rewritten as AdjustEntity says (also lines 76, 100, 116); with no matching id the list is unchanged |
| Ledger.FirstIndex | hooks/useFinance.ts:62 | `find` gives the first position holding the id, or the list length when no entity has it |
| Ledger.CounterpartName | hooks/useFinance.ts:62 | the name of the first entity with the id; the placeholder when no entity has the id or that name is empty; never empty when the placeholder is not |
| Ledger.CounterpartNameIgnoresBalances | hooks/useFinance.ts:58-62 | the name looked up before the balance rewrite equals the one looked up after it |
| Ledger.TransferIsDebitThenCredit | hooks/useFinance.ts:32-36 | with distinct ids a transfer equals debiting `fromId` then crediting `toId`; with equal ids it is the debit alone |
| Ledger.TotalCashAfterTransfer | hooks/useFinance.ts:30-38 | total cash drops by `amount` per `fromId` account and, when the ids differ, rises by `amount` per `toId` account |
| Ledger.TotalCashAfterAdjust | hooks/useFinance.ts:77 | total cash moves by `delta` per account carrying the id |
| Ledger.TotalCashAfterDebit | hooks/useFinance.ts:117 | total cash drops by `amount` per account carrying the id |
| Ledger.EntityTotalAfterAdjust | hooks/useFinance.ts:60 | an entity total moves by `delta` per entity carrying the id |
| Ledger.EntityTotalAfterDebit | hooks/useFinance.ts:76 | an entity total drops by `amount` per entity carrying the id |
| Transitions.InitialData | hooks/useFinance.ts:10-15 | the state used when nothing was saved: the three initial accounts, all balances 0, no clients, suppliers or records |
| Transitions.AddTransaction | hooks/useFinance.ts:22-27 | the log grows by one, the new record is at index 0, older records follow unchanged in order, nothing else changes |
| Transitions.TransferInternal | hooks/useFinance.ts:30-49 | accounts rewritten by TransferAccounts with the id list unchanged; clients and suppliers untouched; one TRANSFER record with `source = fromId`, `destination = toId` and description "Transferencia Interna" prepended |
| Transitions.AddClient | hooks/useFinance.ts:52-55 | exactly one client with the given id, name and balance 0 appended at the end; everything else unchanged and no record logged |
| Transitions.RegisterSale | hooks/useFinance.ts:57-71 | accounts and suppliers untouched; matching clients gain `amount`; one RECEIVABLE_INCREASE record with `destination` the client's name from the prior state and description "Venta: " + description prepended |
| Transitions.CollectPayment | hooks/useFinance.ts:73-89 | matching clients lose `amount`, the named account gains it, and suppliers are untouched; one INCOME record with `source` the client name, `destination` the account id and description "Cobro a Cliente" prepended |
| Transitions.AddSupplier | hooks/useFinance.ts:92-95 | exactly one supplier with the given id, name and balance 0 appended at the end; everything else unchanged and no record logged |
| Transitions.RegisterPurchase | hooks/useFinance.ts:97-111 | accounts and clients untouched; matching suppliers gain `amount`; one DEBT_INCREASE record with `source` the supplier name and description "Factura: " + description prepended |
| Transitions.PaySupplier | hooks/useFinance.ts:113-129 | matching suppliers and the named account each lose `amount`; one EXPENSE record with `source` the account id, `destination` the supplier name and description "Pago a Proveedor" prepended |
| Bookkeeping.TransferTotals | hooks/useFinance.ts:30-48 | total cash drops by `amount * (number of fromId accounts)` and, when the ids differ, rises by `amount * (number of toId accounts)`; receivables and payables do not move |
| Bookkeeping.TransferConservesCash | hooks/useFinance.ts:30-48 | between two different accounts that each occur once, total cash and net worth are conserved |
| Bookkeeping.TransferToSelfOnlyDebits | hooks/useFinance.ts:33-34 | a transfer from an account to itself only debits it: its balance and total cash drop by `amount` |
| Bookkeeping.AddEntityKeepsTotals | hooks/useFinance.ts:52-55 | adding a client or a supplier moves no total (also lines 92-95) |
| Bookkeeping.SaleTotals | hooks/useFinance.ts:57-61 | cash and payables unchanged; receivables rise by `amount * (number of matching clients)`; with one matching client net worth rises by `amount` |
| Bookkeeping.PurchaseTotals | hooks/useFinance.ts:97-101 | cash and receivables unchanged; payables rise by `amount * (number of matching suppliers)`; with one matching supplier net worth drops by `amount` |
| Bookkeeping.CollectTotals | hooks/useFinance.ts:73-78 | cash rises by `amount * (number of matching accounts)`, receivables drop by `amount * (number of matching clients)`, and payables do not move |
| Bookkeeping.CollectKeepsCurrentAssets | hooks/useFinance.ts:73-78 | with one matching client and account, cash + receivables and net worth are preserved, and cash rises by `amount` |
| Bookkeeping.PayTotals | hooks/useFinance.ts:113-118 | cash drops by `amount * (number of matching accounts)`, payables drop by `amount * (number of matching suppliers)`, and receivables do not move |
| Bookkeeping.PayKeepsNetWorth | hooks/useFinance.ts:113-118 | with one matching supplier and account, cash − payables and net worth are preserved, and cash drops by `amount` |
| Bookkeeping.UnknownClientFallsBack | hooks/useFinance.ts:60-89 | for an unknown client id, no client changes and the record names "Cliente"; a collection still credits the account and logs one record |
| Bookkeeping.UnknownSupplierFallsBack | hooks/useFinance.ts:100-128 | for an unknown supplier id, no supplier changes and the record names "Proveedor"; a payment still debits the account and logs one record |
| Bookkeeping.BlankClientNameFallsBack | hooks/useFinance.ts:62 | a client with an empty name is recorded as "Cliente" while its balance still rises by `amount` |
| Sessions.Apply | hooks/useFinance.ts:131-142 | any action keeps the account id list; recorded actions prepend one record, and the two "add" actions leave the log alone |
| Sessions.RunKeepsLogAndAccounts | hooks/useFinance.ts:22-27 | over any sequence of actions, the log grows by the number of recorded actions, the earlier log survives unchanged at its end, and the account ids never change |
| Sessions.ReachableAccountsOnePerType | types.ts:32-36 | in every state reached from the initial one, each account type occurs exactly once |
| Sessions.ReachableTransferConservesCash | hooks/useFinance.ts:30-48 | in every reachable state, a transfer between two different accounts conserves total cash |
| Sessions.SaleScenario | hooks/useFinance.ts:52-71 | adding "Acme" and selling it 1000 gives balance 1000 and one RECEIVABLE_INCREASE record of 1000 naming "Acme" |
| Sessions.CollectionScenario | hooks/useFinance.ts:73-89 | then collecting 400 into EFECTIVO gives client 600, EFECTIVO 400, two records with an INCOME of 400 first |
| Sessions.TransferScenario | hooks/useFinance.ts:30-48 | moving 400 from EFECTIVO (400) to CHEQUES (0) gives 0 and 400 and keeps total cash |
| Sessions.PurchaseThenPaymentScenario | hooks/useFinance.ts:97-129 | a purchase of 250 then a payment of 250 from CHEQUES returns the supplier to 0, lowers CHEQUES by 250 and adds two records |
| Store.FinanceStore.constructor | hooks/useFinance.ts:8-16 | the store starts from the saved snapshot when there is one, else from the initial state |
| Store.FinanceStore.AddTransaction | hooks/useFinance.ts:22-27 | the store's log becomes the record followed by the old log |
| Store.FinanceStore.TransferInternal | hooks/useFinance.ts:30-49 | the new state is Transitions.TransferInternal of the old one; between two distinct accounts that each occur once, total cash is unchanged |
| Store.FinanceStore.AddClient | hooks/useFinance.ts:52-55 | the new state is Transitions.AddClient of the old one |
| Store.FinanceStore.RegisterSale | hooks/useFinance.ts:57-71 | the new state is Transitions.RegisterSale of the old one; the accounts are untouched |
| Store.FinanceStore.CollectPayment | hooks/useFinance.ts:73-89 | the new state is Transitions.CollectPayment of the old one; with one matching client and account, current assets are unchanged |
| Store.FinanceStore.AddSupplier | hooks/useFinance.ts:92-95 | the new state is Transitions.AddSupplier of the old one |
| Store.FinanceStore.RegisterPurchase | hooks/useFinance.ts:97-111 | the new state is Transitions.RegisterPurchase of the old one; the accounts are untouched |
| Store.FinanceStore.PaySupplier | hooks/useFinance.ts:113-129 | the new state is Transitions.PaySupplier of the old one; with one matching supplier and account, cash − payables is unchanged |

## Left out

- Persistence (hooks/useFinance.ts:5, 8-20) is browser I/O. This covers
  `localStorage`, `JSON.stringify`/`JSON.parse` and the save effect. The
  constructor receives the already-parsed snapshot as an `Option`. The save
  after each change, and the save/load round trip, are not modelled.
  `JSON.parse` is unguarded in the code, so a corrupt snapshot throws rather
  than falling back to the initial state. That failure is outside the model.
- `generateId()` (lib/utils is not part of this model) and
  `new Date().toISOString()` are non-deterministic calls. Their results are the
  `txId`, `newId` and `date` parameters of each action.
- Floating-point `number`: amounts and balances are unbounded integers, so
  rounding is not modelled.
- React state batching is not modelled. Each action runs as two sequential
  assignments: the list rewrite, then the prepend. The name is read from the
  snapshot taken at the start of the action. The model therefore does not
  capture a stale render-time snapshot, which could occur if two actions ran
  before a re-render.
- The view guards are not preconditions, because the hook itself accepts any
  input: `amount > 0` and `from != to` (views/Accounts.tsx:22-23), a non-blank
  name (views/Clients.tsx:34, views/Suppliers.tsx:34), and a selected entity
  with a non-empty amount (views/Clients.tsx:43, 52).
- Rendering, modals, icons, navigation, the case-insensitive search filter,
  `formatARS`/`formatDate` and the ratio-bar width (views/Dashboard.tsx:100)
  are presentation code.
- Dashboard.TotalCash: its own contract states only the empty-list case. Its
  behaviour under each action is stated by the Ledger and Bookkeeping lemmas.
- Dashboard.EntityTotal: the same holds as for TotalCash.

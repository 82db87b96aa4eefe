/** The data model of the ledger: accounts, clients and suppliers (one entity
    shape for both), transaction records and the aggregate FinanceData. */
module Types {

  datatype Option<+T> = None | Some(value: T)

  /** The closed set of cash-holding accounts. */
  datatype AccountType = Efectivo | Cheques | Transferencias

  /** The identifier an account carries in the persisted state and in the
      `source`/`destination` of a transaction record. */
  function AccountIdText(t: AccountType): (s: string)
    ensures |s| > 0
  {
    match t
    case Efectivo => "EFECTIVO"
    case Cheques => "CHEQUES"
    case Transferencias => "TRANSFERENCIAS"
  }

  /** Distinct account types are recorded under distinct identifiers. */
  lemma AccountIdTextInjective(t: AccountType, u: AccountType)
    ensures AccountIdText(t) == AccountIdText(u) <==> t == u
  {
  }

  datatype Account = Account(id: AccountType, title: string, balance: int)

  /** A client or a supplier. A positive balance is money the client owes the
      business (receivable) or money the business owes the supplier (payable). */
  datatype Entity = Entity(id: string, name: string, balance: int)

  /** The five kinds of transaction record. */
  datatype TxType = Transfer | Income | Expense | DebtIncrease | ReceivableIncrease

  /** The tag a transaction kind is stored under. */
  function TypeTag(k: TxType): (s: string)
    ensures |s| > 0
  {
    match k
    case Transfer => "TRANSFER"
    case Income => "INCOME"
    case Expense => "EXPENSE"
    case DebtIncrease => "DEBT_INCREASE"
    case ReceivableIncrease => "RECEIVABLE_INCREASE"
  }

  /** Distinct kinds are stored under distinct tags. */
  lemma TypeTagInjective(k: TxType, k': TxType)
    ensures TypeTag(k) == TypeTag(k') <==> k == k'
  {
  }

  /** One record of the log. `source` and `destination` hold either an
      account identifier or an entity's display name, or nothing. */
  datatype Transaction = Transaction(
    id: string,
    date: string,
    kind: TxType,
    amount: int,
    description: string,
    source: Option<string>,
    destination: Option<string>)

  /** The whole application state; the log is kept newest-first. */
  datatype FinanceData = FinanceData(
    accounts: seq<Account>,
    clients: seq<Entity>,
    suppliers: seq<Entity>,
    transactions: seq<Transaction>)

  /** The identifiers of a list of accounts, in order. */
  function AccountIds(accs: seq<Account>): (ids: seq<AccountType>)
    ensures |ids| == |accs|
    ensures forall i :: 0 <= i < |accs| ==> ids[i] == accs[i].id
  {
    seq(|accs|, i requires 0 <= i < |accs| => accs[i].id)
  }

  /** How many accounts of the list carry identifier `t`. */
  function CountAccount(accs: seq<Account>, t: AccountType): (n: nat)
    ensures n <= |accs|
  {
    if accs == [] then 0
    else CountAccount(accs[..|accs| - 1], t) + (if accs[|accs| - 1].id == t then 1 else 0)
  }

  /** No account carries the id exactly when the count is 0. */
  lemma {:induction false} CountAccountZero(accs: seq<Account>, t: AccountType)
    ensures CountAccount(accs, t) == 0 <==> forall i :: 0 <= i < |accs| ==> accs[i].id != t
  {
    if accs != [] {
      CountAccountZero(accs[..|accs| - 1], t);
    }
  }

  /** The three accounts the ledger starts with: one per account type, in
      declaration order, each with balance 0. */
  function InitialAccounts(): (r: seq<Account>)
    ensures AccountIds(r) == [Efectivo, Cheques, Transferencias]
    ensures forall i :: 0 <= i < |r| ==> r[i].balance == 0
    ensures forall i, j :: 0 <= i < j < |r| ==> r[i].id != r[j].id
  {
    [ Account(Efectivo, "Caja Efectivo", 0),
      Account(Cheques, "Caja Cheques", 0),
      Account(Transferencias, "Caja Transferencias", 0) ]
  }

  /** Every account type occurs exactly once among the initial accounts. */
  lemma InitialAccountsOnePerType(t: AccountType)
    ensures CountAccount(InitialAccounts(), t) == 1
  {
  }
}

/** The per-list updates the ledger actions are built from: a `map` that
    rewrites the matching elements, and the lookup of an entity's display
    name with its placeholder fallback. Each update comes with the way it
    moves the matching dashboard total. */
module Ledger {
  import opened Types
  import opened Dashboard

  /** The rewrite `transferInternal` applies to one account. The `fromId`
      test comes first, so when `fromId == toId` the account is only debited. */
  function TransferOne(acc: Account, fromId: AccountType, toId: AccountType, amount: int): (r: Account)
    ensures r.id == acc.id && r.title == acc.title
    ensures acc.id == fromId ==> r.balance == acc.balance - amount
    ensures acc.id == toId && toId != fromId ==> r.balance == acc.balance + amount
    ensures acc.id != fromId && acc.id != toId ==> r == acc
  {
    if acc.id == fromId then acc.(balance := acc.balance - amount)
    else if acc.id == toId then acc.(balance := acc.balance + amount)
    else acc
  }

  /** The account list of an internal transfer: every account rewritten in place. */
  function TransferAccounts(accs: seq<Account>, fromId: AccountType, toId: AccountType, amount: int): (r: seq<Account>)
    ensures |r| == |accs|
    ensures forall i :: 0 <= i < |r| ==> r[i] == TransferOne(accs[i], fromId, toId, amount)
  {
    seq(|accs|, i requires 0 <= i < |accs| => TransferOne(accs[i], fromId, toId, amount))
  }

  /** The rewrite a collection (`delta = amount`) or a payment
      (`delta = -amount`) applies to one account. */
  function AdjustOne(acc: Account, id: AccountType, delta: int): (r: Account)
    ensures r.id == acc.id && r.title == acc.title
    ensures acc.id == id ==> r.balance == acc.balance + delta
    ensures acc.id != id ==> r == acc
  {
    if acc.id == id then acc.(balance := acc.balance + delta) else acc
  }

  function AdjustAccounts(accs: seq<Account>, id: AccountType, delta: int): (r: seq<Account>)
    ensures |r| == |accs|
    ensures forall i :: 0 <= i < |r| ==> r[i] == AdjustOne(accs[i], id, delta)
  {
    seq(|accs|, i requires 0 <= i < |accs| => AdjustOne(accs[i], id, delta))
  }

  /** How many entities of the list carry identifier `id`. */
  function CountEntity(es: seq<Entity>, id: string): (n: nat)
    ensures n <= |es|
  {
    if es == [] then 0
    else CountEntity(es[..|es| - 1], id) + (if es[|es| - 1].id == id then 1 else 0)
  }

  /** No entity carries the id exactly when the count is 0. */
  lemma {:induction false} CountEntityZero(es: seq<Entity>, id: string)
    ensures CountEntity(es, id) == 0 <==> forall i :: 0 <= i < |es| ==> es[i].id != id
  {
    if es != [] {
      CountEntityZero(es[..|es| - 1], id);
    }
  }

  /** The rewrite a sale or purchase (`delta = amount`), or a collection or
      payment (`delta = -amount`), applies to one entity. */
  function AdjustEntity(e: Entity, id: string, delta: int): (r: Entity)
    ensures r.id == e.id && r.name == e.name
    ensures e.id == id ==> r.balance == e.balance + delta
    ensures e.id != id ==> r == e
  {
    if e.id == id then e.(balance := e.balance + delta) else e
  }

  /** The entity list after such an action: ids and names never change. */
  function AdjustEntities(es: seq<Entity>, id: string, delta: int): (r: seq<Entity>)
    ensures |r| == |es|
    ensures forall i :: 0 <= i < |r| ==> r[i] == AdjustEntity(es[i], id, delta)
    ensures (forall i :: 0 <= i < |es| ==> es[i].id != id) ==> r == es
  {
    seq(|es|, i requires 0 <= i < |es| => AdjustEntity(es[i], id, delta))
  }

  /** Position of the first entity with identifier `id` (what `find`
      returns), or `|es|` when there is none. */
  function FirstIndex(es: seq<Entity>, id: string): (k: nat)
    ensures k <= |es|
    ensures k < |es| ==> es[k].id == id
    ensures forall j :: 0 <= j < k ==> es[j].id != id
  {
    if es == [] then 0
    else if es[0].id == id then 0
    else 1 + FirstIndex(es[1..], id)
  }

  /** The counterpart name written into a transaction: the name of the first
      entity with the id, unless there is none or its name is empty, in which
      case the placeholder. */
  function CounterpartName(es: seq<Entity>, id: string, fallback: string): (name: string)
    ensures (forall i :: 0 <= i < |es| ==> es[i].id != id) ==> name == fallback
    ensures forall i :: 0 <= i < |es| && es[i].id == id && (forall j :: 0 <= j < i ==> es[j].id != id) ==>
              name == (if es[i].name != "" then es[i].name else fallback)
    ensures fallback != "" ==> name != ""
  {
    var k := FirstIndex(es, id);
    if k < |es| && es[k].name != "" then es[k].name else fallback
  }

  /** Rewriting balances does not change which name a lookup finds, so the
      name read from the state before the rewrite is the one after it. */
  lemma CounterpartNameIgnoresBalances(es: seq<Entity>, id: string, delta: int, key: string, fallback: string)
    ensures CounterpartName(AdjustEntities(es, id, delta), key, fallback) == CounterpartName(es, key, fallback)
  {
  }

  /** `k` added `n` times. Totals below move by this much; it is kept apart
      from `*` so that the induction steps stay linear. */
  function Times(k: int, n: nat): int
  {
    if n == 0 then 0 else Times(k, n - 1) + k
  }

  lemma {:induction false} TimesIsProduct(k: int, n: nat)
    ensures Times(k, n) == k * n
  {
    if n > 0 {
      TimesIsProduct(k, n - 1);
    }
  }

  lemma {:induction false} TimesNegate(k: int, n: nat)
    ensures Times(-k, n) == -Times(k, n)
  {
    if n > 0 {
      TimesNegate(k, n - 1);
    }
  }

  /** A transfer between two different accounts is a debit of `fromId`
      followed by a credit of `toId`; between an account and itself it is
      the debit alone. */
  lemma TransferIsDebitThenCredit(accs: seq<Account>, fromId: AccountType, toId: AccountType, amount: int)
    ensures fromId != toId ==>
      TransferAccounts(accs, fromId, toId, amount) == AdjustAccounts(AdjustAccounts(accs, fromId, -amount), toId, amount)
    ensures fromId == toId ==>
      TransferAccounts(accs, fromId, toId, amount) == AdjustAccounts(accs, fromId, -amount)
  {
  }

  /** Each account with id `fromId` loses `amount`; when the ids differ each
      account with id `toId` gains it. */
  lemma TotalCashAfterTransfer(accs: seq<Account>, fromId: AccountType, toId: AccountType, amount: int)
    ensures TotalCash(TransferAccounts(accs, fromId, toId, amount))
         == TotalCash(accs) - Times(amount, CountAccount(accs, fromId))
            + (if fromId != toId then Times(amount, CountAccount(accs, toId)) else 0)
  {
    var cf := CountAccount(accs, fromId);
    var debited := AdjustAccounts(accs, fromId, -amount);
    assert TotalCash(debited) == TotalCash(accs) - Times(amount, cf) by {
      TotalCashAfterAdjust(accs, fromId, -amount);
      TimesNegate(amount, cf);
    }
    if fromId != toId {
      var ct := CountAccount(accs, toId);
      assert CountAccount(debited, toId) == ct by {
        CountAccountFollowsIds(debited, accs, toId);
      }
      var moved := AdjustAccounts(debited, toId, amount);
      assert TotalCash(moved) == TotalCash(debited) + Times(amount, ct) by {
        TotalCashAfterAdjust(debited, toId, amount);
      }
      assert TransferAccounts(accs, fromId, toId, amount) == moved by {
        TransferIsDebitThenCredit(accs, fromId, toId, amount);
      }
    } else {
      assert TransferAccounts(accs, fromId, toId, amount) == debited by {
        TransferIsDebitThenCredit(accs, fromId, toId, amount);
      }
    }
  }

  /** Each account with the given id moves by `delta`. */
  lemma {:induction false} TotalCashAfterAdjust(accs: seq<Account>, id: AccountType, delta: int)
    ensures TotalCash(AdjustAccounts(accs, id, delta)) == TotalCash(accs) + Times(delta, CountAccount(accs, id))
  {
    if accs != [] {
      var n := |accs|;
      var init := accs[..n - 1];
      var r := AdjustAccounts(accs, id, delta);
      assert TotalCash(r) == TotalCash(AdjustAccounts(init, id, delta)) + r[n - 1].balance by {
        assert r[..n - 1] == AdjustAccounts(init, id, delta);
      }
      TotalCashAfterAdjust(init, id, delta);
      var c := CountAccount(init, id);
      if accs[n - 1].id == id {
        assert CountAccount(accs, id) == c + 1;
        assert Times(delta, c + 1) == Times(delta, c) + delta;
      } else {
        assert CountAccount(accs, id) == c;
      }
    }
  }

  /** Each account with the given id loses `amount`. */
  lemma TotalCashAfterDebit(accs: seq<Account>, id: AccountType, amount: int)
    ensures TotalCash(AdjustAccounts(accs, id, -amount)) == TotalCash(accs) - Times(amount, CountAccount(accs, id))
  {
    TotalCashAfterAdjust(accs, id, -amount);
    TimesNegate(amount, CountAccount(accs, id));
  }

  /** Each entity with the given id moves by `delta`. */
  lemma {:induction false} EntityTotalAfterAdjust(es: seq<Entity>, id: string, delta: int)
    ensures EntityTotal(AdjustEntities(es, id, delta)) == EntityTotal(es) + Times(delta, CountEntity(es, id))
  {
    if es != [] {
      var n := |es|;
      var init := es[..n - 1];
      var r := AdjustEntities(es, id, delta);
      assert EntityTotal(r) == EntityTotal(AdjustEntities(init, id, delta)) + r[n - 1].balance by {
        assert r[..n - 1] == AdjustEntities(init, id, delta);
      }
      EntityTotalAfterAdjust(init, id, delta);
      var c := CountEntity(init, id);
      if es[n - 1].id == id {
        assert CountEntity(es, id) == c + 1;
        assert Times(delta, c + 1) == Times(delta, c) + delta;
      } else {
        assert CountEntity(es, id) == c;
      }
    }
  }

  /** Each entity with the given id loses `amount`. */
  lemma EntityTotalAfterDebit(es: seq<Entity>, id: string, amount: int)
    ensures EntityTotal(AdjustEntities(es, id, -amount)) == EntityTotal(es) - Times(amount, CountEntity(es, id))
  {
    EntityTotalAfterAdjust(es, id, -amount);
    TimesNegate(amount, CountEntity(es, id));
  }

  /** The number of accounts carrying an id depends only on the id list. */
  lemma {:induction false} CountAccountFollowsIds(a: seq<Account>, b: seq<Account>, t: AccountType)
    requires AccountIds(a) == AccountIds(b)
    ensures CountAccount(a, t) == CountAccount(b, t)
  {
    if a != [] {
      var n := |a|;
      assert AccountIds(a[..n - 1]) == AccountIds(a)[..n - 1];
      assert AccountIds(b[..n - 1]) == AccountIds(b)[..n - 1];
      assert a[n - 1].id == AccountIds(a)[n - 1];
      CountAccountFollowsIds(a[..n - 1], b[..n - 1], t);
    }
  }
}

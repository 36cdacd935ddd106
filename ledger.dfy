/**
 * The token ledger: a browser key-value store holding, under the key
 * `tokens_{uid}`, the integer balance of each user. Values are kept as
 * integers; the decimal string encoding of the real store is not modelled.
 */
module Ledger {

  const KeyPrefix: string := "tokens_"

  /** The store key under which a user's balance is kept. */
  function TokenKey(uid: string): (key: string)
    ensures |key| == |KeyPrefix| + |uid|
    ensures key[..|KeyPrefix|] == KeyPrefix && key[|KeyPrefix|..] == uid
  {
    KeyPrefix + uid
  }

  /** The balance read back for a user: the stored value, or 0 when the key is missing. */
  function LoadBalance(store: map<string, int>, uid: string): (balance: int)
    ensures TokenKey(uid) !in store ==> balance == 0
    ensures TokenKey(uid) in store ==> balance == store[TokenKey(uid)]
  {
    if TokenKey(uid) in store then store[TokenKey(uid)] else 0
  }

  /** Writing a balance: the user's key now holds it; every other key is as it was. */
  function StoreBalance(store: map<string, int>, uid: string, balance: int): (r: map<string, int>)
    ensures TokenKey(uid) in r && r[TokenKey(uid)] == balance
    ensures forall key :: key in r && key != TokenKey(uid) ==> key in store && r[key] == store[key]
    ensures forall key :: key in store ==> key in r
  {
    store[TokenKey(uid) := balance]
  }

  /** Removing a balance: the user's key is gone; every other key is as it was. */
  function RemoveBalance(store: map<string, int>, uid: string): (r: map<string, int>)
    ensures TokenKey(uid) !in r
    ensures forall key :: key in r ==> key in store && r[key] == store[key]
    ensures forall key :: key in store && key != TokenKey(uid) ==> key in r
  {
    store - {TokenKey(uid)}
  }

  /** Every balance kept in the store is non-negative. */
  ghost predicate NonNegative(store: map<string, int>)
  {
    forall key :: key in store ==> store[key] >= 0
  }

  /** Two users share a key only if they are the same user. */
  lemma TokenKeyInjective(a: string, b: string)
    ensures TokenKey(a) == TokenKey(b) <==> a == b
  {
    if TokenKey(a) == TokenKey(b) {
      calc {
        a;
        TokenKey(a)[|KeyPrefix|..];
        TokenKey(b)[|KeyPrefix|..];
        b;
      }
    }
  }

  /** A written balance is read back unchanged. */
  lemma LoadAfterStore(store: map<string, int>, uid: string, balance: int)
    ensures LoadBalance(StoreBalance(store, uid, balance), uid) == balance
  {
  }

  /** Writing one user's balance leaves every other user's balance alone. */
  lemma LoadAfterStoreOther(store: map<string, int>, uid: string, other: string, balance: int)
    requires other != uid
    ensures LoadBalance(StoreBalance(store, uid, balance), other) == LoadBalance(store, other)
  {
    TokenKeyInjective(uid, other);
  }

  /** After removal the user's balance reads as 0. */
  lemma LoadAfterRemove(store: map<string, int>, uid: string)
    ensures LoadBalance(RemoveBalance(store, uid), uid) == 0
  {
  }

  /** Removing one user's entry leaves every other user's balance alone. */
  lemma LoadAfterRemoveOther(store: map<string, int>, uid: string, other: string)
    requires other != uid
    ensures LoadBalance(RemoveBalance(store, uid), other) == LoadBalance(store, other)
  {
    TokenKeyInjective(uid, other);
  }

  /** A store of non-negative balances only ever yields non-negative balances. */
  lemma LoadNonNegative(store: map<string, int>, uid: string)
    requires NonNegative(store)
    ensures LoadBalance(store, uid) >= 0
  {
  }

  /** Writing a non-negative balance, or removing one, keeps the store non-negative. */
  lemma UpdatesKeepNonNegative(store: map<string, int>, uid: string, balance: int)
    requires NonNegative(store) && balance >= 0
    ensures NonNegative(StoreBalance(store, uid, balance))
    ensures NonNegative(RemoveBalance(store, uid))
  {
  }
}

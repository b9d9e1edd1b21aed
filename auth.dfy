/**
 * The web client's auth store (apps/web/src/stores/auth.ts): the session
 * token, mirrored in the browser's `localStorage` under one key.  The
 * storage is a key-to-value map shared with whoever else holds it.
 */
module Auth {
  /** `TOKEN_KEY`. */
  const TokenKey: string := "service_catalog_token"

  /** `localStorage`, as a key-to-value map. */
  class LocalStorage {
    var items: map<string, string>

    constructor (items: map<string, string>)
      ensures this.items == items
    {
      this.items := items;
    }
  }

  /** `localStorage.getItem(TOKEN_KEY) ?? ''`: the stored token, or none. */
  function StoredToken(items: map<string, string>): (t: string)
    ensures TokenKey in items ==> t == items[TokenKey]
    ensures TokenKey !in items ==> t == ""
  {
    if TokenKey in items then items[TokenKey] else ""
  }

  /** `Boolean(token)`: a string is truthy when it is not empty. */
  predicate Truthy(token: string) {
    token != ""
  }

  class AuthStore {
    var token: string
    const storage: LocalStorage

    /** The token in memory is the stored one: what a reload would read. */
    ghost predicate Valid()
      reads this, storage
    {
      token == StoredToken(storage.items)
    }

    /** The store's initial state: the token read back from storage. */
    constructor (storage: LocalStorage)
      ensures this.storage == storage
      ensures token == StoredToken(storage.items)
      ensures Valid()
    {
      this.storage := storage;
      token := StoredToken(storage.items);
    }

    /** The `isAuthenticated` getter. */
    predicate IsAuthenticated()
      reads this
    {
      Truthy(token)
    }

    /** `login(token)`: keep the token and store it. */
    method Login(t: string)
      modifies this, storage
      ensures token == t
      ensures storage.items == old(storage.items)[TokenKey := t]
      ensures Valid()
      ensures IsAuthenticated() <==> t != ""
    {
      token := t;
      storage.items := storage.items[TokenKey := t];
    }

    /** `logout()`: forget the token and remove it from storage. */
    method Logout()
      modifies this, storage
      ensures token == ""
      ensures storage.items == old(storage.items) - {TokenKey}
      ensures Valid()
      ensures !IsAuthenticated()
    {
      token := "";
      storage.items := storage.items - {TokenKey};
    }
  }

  /** A store built on the storage `login(t)` leaves holds `t` again. */
  lemma LoginSurvivesReload(items: map<string, string>, t: string)
    ensures StoredToken(items[TokenKey := t]) == t
    ensures Truthy(StoredToken(items[TokenKey := t])) <==> t != ""
  {
  }

  /** A store built on the storage `logout()` leaves is signed out. */
  lemma LogoutSurvivesReload(items: map<string, string>)
    ensures StoredToken(items - {TokenKey}) == ""
    ensures !Truthy(StoredToken(items - {TokenKey}))
  {
  }
}

/** The client session (lib/auth-context.tsx): restoring the user from the browser's storage,
    logging out, and the `useAuth` hook. */
module AuthContext {
  import opened Common

  /** The context's user. The role is the stored string, taken as it is. */
  datatype SessionUser = SessionUser(id: string, role: string, name: string, email: string)

  /** `localStorage.getItem(key) || ''`. */
  function ItemOrEmpty(storage: Storage, key: string): (s: string)
    ensures key in storage ==> s == storage[key]
    ensures key !in storage ==> s == ""
  {
    if Truthy(Item(storage, key)) then storage[key] else ""
  }

  /** The provider's mount effect: a user exactly when both a token and a role are stored. */
  function Restore(storage: Storage): (u: Option<SessionUser>)
    ensures u.Some? <==> Truthy(Item(storage, "token")) && Truthy(Item(storage, "role"))
    ensures u.Some? ==>
      && u.value.role == storage["role"]
      && u.value.id == ItemOrEmpty(storage, "userId")
      && u.value.name == ItemOrEmpty(storage, "userName")
      && u.value.email == ItemOrEmpty(storage, "userEmail")
  {
    if Truthy(Item(storage, "token")) && Truthy(Item(storage, "role"))
    then Some(SessionUser(ItemOrEmpty(storage, "userId"), storage["role"],
                          ItemOrEmpty(storage, "userName"), ItemOrEmpty(storage, "userEmail")))
    else None
  }

  const SessionKeys: set<string> := {"token", "role", "userId", "userName", "userEmail"}

  /** The storage after `logout`: the five session keys are gone, every other key is kept. */
  function ClearSession(storage: Storage): (r: Storage)
    ensures forall k :: k in r <==> k in storage && k !in SessionKeys
    ensures forall k :: k in r ==> r[k] == storage[k]
  {
    storage - SessionKeys
  }

  /** After logout nothing is restored. */
  lemma NoSessionAfterLogout(storage: Storage)
    ensures Restore(ClearSession(storage)).None?
  {
    assert "token" in SessionKeys;
  }

  /** `AuthProvider`'s state; `storage` is the browser's storage as the provider sees it. */
  class Provider {
    var storage: Storage
    var user: Option<SessionUser>
    var loading: bool

    constructor (storage: Storage)
      ensures this.storage == storage && user.None? && loading
    {
      this.storage, user, loading := storage, None, true;
    }

    /** The mount effect: restore the user, then end loading in every case. */
    method Initialise()
      modifies this
      ensures user == Restore(storage) && !loading && storage == old(storage)
    {
      user := Restore(storage);
      loading := false;
    }

    /** `logout`: removes the five session keys, clears the user and navigates to `/`. */
    method Logout() returns (target: string)
      modifies this
      ensures storage == ClearSession(old(storage)) && user.None? && loading == old(loading)
      ensures target == "/"
    {
      storage := ClearSession(storage);
      user := None;
      target := "/";
    }
  }

  /** The value the provider hands down. */
  datatype ContextValue = ContextValue(user: Option<SessionUser>, loading: bool)

  datatype Hook = Provided(context: ContextValue) | Thrown(message: string)

  /** `useAuth`: throws outside an `AuthProvider`, otherwise yields the provider's value. */
  function UseAuth(context: Option<ContextValue>): (r: Hook)
    ensures r.Thrown? <==> context.None?
    ensures r.Provided? ==> r.context == context.value
  {
    match context
    case None => Thrown("useAuth must be used within AuthProvider")
    case Some(c) => Provided(c)
  }
}

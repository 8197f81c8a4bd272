/**
 * The signed-in session: the current user (or none) and the browser's
 * session storage, where the user is kept under the key "user". Every change
 * of the user is followed by the persist effect, which writes the user back
 * or removes the key.
 */
module Auth {
  import opened Wrappers
  import opened Types

  /**
   * A value held in session storage: a serialised user, a serialised order
   * (the checkout keeps pending orders there), or text that does not parse
   * as either.
   */
  datatype Stored = UserJson(user: User) | OrderJson(order: Order) | Unreadable

  const UserKey: string := "user"

  /**
   * The user read at start-up: the stored user when the key holds one,
   * otherwise none (an absent key, or text that fails to parse).
   */
  function LoadUser(storage: map<string, Stored>): (r: Option<User>)
    ensures r.Some? <==> UserKey in storage && storage[UserKey].UserJson?
    ensures r.Some? ==> r.value == storage[UserKey].user
  {
    if UserKey in storage && storage[UserKey].UserJson? then Some(storage[UserKey].user) else None
  }

  /** The persist effect: a user is written under "user", no user removes the key; other keys stay. */
  function Persist(storage: map<string, Stored>, user: Option<User>): (r: map<string, Stored>)
    ensures forall k :: k != UserKey ==> (k in r <==> k in storage)
    ensures forall k :: k != UserKey && k in r ==> r[k] == storage[k]
    ensures user.Some? ==> UserKey in r && r[UserKey] == UserJson(user.value)
    ensures user.None? ==> UserKey !in r
  {
    match user
    case Some(u) => storage[UserKey := UserJson(u)]
    case None => storage - {UserKey}
  }

  /** Whatever user was persisted is the user the next start-up loads. */
  lemma LoadAfterPersist(storage: map<string, Stored>, user: Option<User>)
    ensures LoadUser(Persist(storage, user)) == user
  {
  }

  /** Persisting the loaded user again changes nothing but an unreadable "user" entry, which it drops. */
  lemma PersistLoaded(storage: map<string, Stored>)
    ensures UserKey in storage && storage[UserKey].UserJson? ==> Persist(storage, LoadUser(storage)) == storage
    ensures UserKey !in storage ==> Persist(storage, LoadUser(storage)) == storage
  {
  }

  /** The user `login` creates. */
  function NewUser(name: string, email: string, avatarUrl: string): (u: User)
    ensures u.name == name && u.email == email
    ensures u.currency == Some(UYU) && u.orders == Some([]) && OrdersOf(u) == []
    ensures u.avatar == Some(avatarUrl)
  {
    User(name, email, Some(avatarUrl), Some(UYU), Some([]))
  }

  /**
   * A `Partial<User>`: each field is absent (None) or supplied (Some). The
   * optional fields may be supplied as `undefined` (Some(None)), which the
   * spread copies like any other value.
   */
  datatype UserPatch = UserPatch(
    name: Option<string>,
    email: Option<string>,
    avatar: Option<Option<string>>,
    currency: Option<Option<Currency>>,
    orders: Option<Option<seq<Order>>>)

  /** `{ ...user, ...patch }` */
  function Merge(u: User, patch: UserPatch): (r: User)
    ensures r.name == patch.name.GetOr(u.name)
    ensures r.email == patch.email.GetOr(u.email)
    ensures r.avatar == patch.avatar.GetOr(u.avatar)
    ensures r.currency == patch.currency.GetOr(u.currency)
    ensures r.orders == patch.orders.GetOr(u.orders)
  {
    User(
      if patch.name.Some? then patch.name.value else u.name,
      if patch.email.Some? then patch.email.value else u.email,
      if patch.avatar.Some? then patch.avatar.value else u.avatar,
      if patch.currency.Some? then patch.currency.value else u.currency,
      if patch.orders.Some? then patch.orders.value else u.orders)
  }

  const EmptyPatch := UserPatch(None, None, None, None, None)

  /** An empty patch keeps the user. */
  lemma MergeEmpty(u: User)
    ensures Merge(u, EmptyPatch) == u
  {
  }

  /** Applying the same patch twice is applying it once. */
  lemma MergeIdempotent(u: User, patch: UserPatch)
    ensures Merge(Merge(u, patch), patch) == Merge(u, patch)
  {
  }

  /** The user with `order` appended to its orders (a missing list counts as empty). */
  function WithOrder(u: User, order: Order): (r: User)
    ensures OrdersOf(r) == OrdersOf(u) + [order]
    ensures r.name == u.name && r.email == u.email && r.avatar == u.avatar && r.currency == u.currency
  {
    u.(orders := Some(OrdersOf(u) + [order]))
  }

  /** Adding orders one after another keeps every earlier order, in order. */
  lemma WithOrderKeepsHistory(u: User, a: Order, b: Order)
    ensures OrdersOf(WithOrder(WithOrder(u, a), b)) == OrdersOf(u) + [a, b]
  {
  }

  /** The session: the current user and the session storage it is persisted to. */
  class Session {
    var user: Option<User>
    var storage: map<string, Stored>

    /** The persist effect has run for the current user. */
    predicate Valid()
      reads this
    {
      storage == Persist(storage, user)
    }

    /** `!!user` */
    predicate IsAuthenticated()
      reads this
    {
      user.Some?
    }

    /** Start-up: load the stored user, then run the persist effect once. */
    constructor(stored: map<string, Stored>)
      ensures user == LoadUser(stored)
      ensures storage == Persist(stored, LoadUser(stored))
      ensures Valid()
    {
      user := LoadUser(stored);
      storage := Persist(stored, LoadUser(stored));
    }

    /** `login(name, email)`; the avatar URL built from the name is passed in. */
    method Login(name: string, email: string, avatarUrl: string)
      modifies this
      ensures user == Some(NewUser(name, email, avatarUrl))
      ensures storage == Persist(old(storage), user)
      ensures Valid()
    {
      user := Some(NewUser(name, email, avatarUrl));
      storage := Persist(storage, user);
    }

    method Logout()
      modifies this
      ensures user == None && !IsAuthenticated()
      ensures storage == Persist(old(storage), None)
      ensures Valid()
    {
      user := None;
      storage := Persist(storage, user);
    }

    /** `updateUser(patch)`: merge into the current user; with no user, none. */
    method UpdateUser(patch: UserPatch)
      modifies this
      ensures old(user).None? ==> user == None
      ensures old(user).Some? ==> user == Some(Merge(old(user).value, patch))
      ensures storage == Persist(old(storage), user)
      ensures Valid()
    {
      if user.Some? {
        user := Some(Merge(user.value, patch));
      }
      storage := Persist(storage, user);
    }

    /** `addOrder(order)`: append to the user's orders; with no user, nothing changes. */
    method AddOrder(order: Order)
      modifies this
      ensures old(user).None? ==> user == None
      ensures old(user).Some? ==> user == Some(WithOrder(old(user).value, order))
      ensures storage == Persist(old(storage), user)
      ensures Valid()
    {
      if user.Some? {
        user := Some(WithOrder(user.value, order));
      }
      storage := Persist(storage, user);
    }

    /** Writes an entry other than the user's (the checkout's pending orders). */
    method SetItem(key: string, value: Stored)
      requires Valid()
      requires key != UserKey
      modifies this
      ensures user == old(user)
      ensures storage == old(storage)[key := value]
      ensures Valid()
    {
      storage := storage[key := value];
    }

    /** Removes an entry other than the user's. */
    method RemoveItem(key: string)
      requires Valid()
      requires key != UserKey
      modifies this
      ensures user == old(user)
      ensures storage == old(storage) - {key}
      ensures Valid()
    {
      storage := storage - {key};
    }
  }
}

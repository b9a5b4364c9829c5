/** src/services/user.service.ts: the in-memory user table. A module-level
    array seeded with two users is read whole, searched for the first user
    with a given id, and appended to without any duplicate check. */
module UserService {
  import opened Wrappers

  /** A row of the table. */
  datatype User = User(id: int, name: string, email: string)

  /** The two users the table starts with. */
  const Seed: seq<User> := [User(1, "Ahmet", "ahmet@example.com"), User(2, "Mehmet", "mehmet@example.com")]

  /** Index of the first user whose id is `id`, as `Array.prototype.find`
      scans: front to back, stopping at the first match. */
  function FirstWithId(users: seq<User>, id: int): (r: Option<nat>)
    ensures r.Some? ==> r.value < |users| && users[r.value].id == id
                        && forall j :: 0 <= j < r.value ==> users[j].id != id
    ensures r.None? <==> forall j :: 0 <= j < |users| ==> users[j].id != id
  {
    if users == [] then None
    else if users[0].id == id then Some(0)
    else match FirstWithId(users[1..], id)
      case None => None
      case Some(k) => Some(k + 1)
  }

  /** The user `findById` returns: the first match, or `undefined`. */
  function Lookup(users: seq<User>, id: int): Option<User>
  {
    match FirstWithId(users, id)
    case None => None
    case Some(k) => Some(users[k])
  }

  /** Appending a user leaves every earlier lookup as it was, and a user whose
      id was not yet taken becomes the answer for that id. */
  lemma {:induction false} LookupAfterAppend(users: seq<User>, u: User, id: int)
    ensures Lookup(users + [u], id) == if Lookup(users, id).Some? then Lookup(users, id)
                                        else if u.id == id then Some(u) else None
  {
    if users == [] {
      assert users + [u] == [u];
    } else {
      assert (users + [u])[1..] == users[1..] + [u];
      LookupAfterAppend(users[1..], u, id);
      if users[0].id != id {
        assert FirstWithId(users + [u], id) == match FirstWithId(users[1..] + [u], id)
          case None => None
          case Some(k) => Some(k + 1);
      }
    }
  }

  /** No duplicate check: appending a second user with an id already in the
      table does not change what `findById` returns for that id. */
  lemma DuplicateIsShadowed(users: seq<User>, u: User)
    requires exists j :: 0 <= j < |users| && users[j].id == u.id
    ensures Lookup(users + [u], u.id) == Lookup(users, u.id)
    ensures Lookup(users, u.id).Some? && Lookup(users, u.id).value != u ==> Lookup(users + [u], u.id) != Some(u)
  {
    LookupAfterAppend(users, u, u.id);
  }

  /** The seed answers for ids 1 and 2 and for nothing else. */
  lemma SeedLookup(id: int)
    ensures Lookup(Seed, id) == if id == 1 then Some(Seed[0]) else if id == 2 then Some(Seed[1]) else None
  {
    assert Seed[1..][1..] == [];
  }

  /** The table behind `UserService`. */
  class UserTable {
    var users: seq<User>

    /** The module's initial state. */
    constructor ()
      ensures users == Seed
    {
      users := Seed;
    }

    /** `findAll`: the whole current table. */
    method FindAll() returns (r: seq<User>)
      ensures r == users
    {
      r := users;
    }

    /** `findById`: a linear scan for the first user with that id; `None`
        (`undefined`) exactly when no user has it. */
    method FindById(id: int) returns (r: Option<User>)
      ensures r == Lookup(users, id)
      ensures r.None? <==> forall j :: 0 <= j < |users| ==> users[j].id != id
      ensures r.Some? ==> r.value.id == id
                          && exists k :: 0 <= k < |users| && users[k] == r.value
                                         && forall j :: 0 <= j < k ==> users[j].id != id
    {
      var i := 0;
      while i < |users|
        invariant 0 <= i <= |users|
        invariant forall j :: 0 <= j < i ==> users[j].id != id
      {
        if users[i].id == id {
          return Some(users[i]);
        }
        i := i + 1;
      }
      r := None;
    }

    /** `create`: appends the user at the end, unchecked, and returns it. */
    method Create(u: User) returns (r: User)
      modifies this
      ensures r == u
      ensures users == old(users) + [u]
      ensures |users| == |old(users)| + 1 && users[..|old(users)|] == old(users)
    {
      users := users + [u];
      r := u;
    }
  }
}

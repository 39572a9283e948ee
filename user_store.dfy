/** internal/db/user.go, as far as the authentication code relies on it: the
    `user` table as seen through its two lookups by e-mail, one yielding the
    stored user and one yielding the row's id. Database failures other than
    a missing row are not modelled. */
module UserDb {
  import opened Wrappers
  import opened Strconv
  import opened Types
  import opened Http

  function NoSuchUser(email: string): string
  {
    "no such user: " + email
  }

  /** A lookup by e-mail after a row for `key` is inserted: a new e-mail finds
      the new row's `v`, an e-mail already present still finds its earlier
      row, and every other e-mail finds what it found before. */
  function Inserted<V>(m: map<string, V>, key: string, v: V): (r: map<string, V>)
    ensures r.Keys == m.Keys + {key}
    ensures forall e :: e in m ==> r[e] == m[e]
    ensures key !in m ==> r[key] == v
  {
    if key in m then m else m[key := v]
  }

  /** userStore. */
  class UserStore {
    var users: map<string, User>
    var ids: map<string, int64>
    /** The database's refusal of an INSERT (a duplicate e-mail, say), given
        the users stored so far. */
    const insertError: (map<string, User>, User) -> Option<string>
    /** The id the database gives a new row, given the ids stored so far. */
    const assignId: map<string, int64> -> int64

    constructor (users: map<string, User>, ids: map<string, int64>,
                 insertError: (map<string, User>, User) -> Option<string>,
                 assignId: map<string, int64> -> int64)
      requires forall e :: e in users ==> users[e].email == e
      requires users.Keys == ids.Keys
      ensures this.users == users && this.ids == ids
      ensures this.insertError == insertError && this.assignId == assignId
      ensures Valid()
    {
      this.users := users;
      this.ids := ids;
      this.insertError := insertError;
      this.assignId := assignId;
    }

    /** Every stored user is filed under its own e-mail. */
    ghost predicate Keyed()
      reads this
    {
      forall e :: e in users ==> users[e].email == e
    }

    /** Both lookups read the same rows: an e-mail finds a user exactly when
        it finds an id, and the user found carries that e-mail. */
    ghost predicate Valid()
      reads this
    {
      Keyed() && users.Keys == ids.Keys
    }

    /** userStore.GetUser: a missing row is a plain error naming the e-mail. */
    function GetUser(email: string): (r: Result<User, Error>)
      reads this
      ensures r.Success? <==> email in users
      ensures r.Success? ==> r.value == users[email]
      ensures r.Failure? ==> r.error == Raw(NoSuchUser(email))
    {
      if email in users then Success(users[email]) else Failure(Raw(NoSuchUser(email)))
    }

    /** userStore.GetUserID: a missing row is a 404 naming the e-mail. */
    function GetUserID(email: string): (r: Result<int64, Error>)
      reads this
      ensures r.Success? <==> email in ids
      ensures r.Success? ==> r.value == ids[email]
      ensures r.Failure? ==> r.error == HttpError(StatusNotFound, Text(NoSuchUser(email)))
    {
      if email in ids then Success(ids[email]) else Failure(HttpError(StatusNotFound, Text(NoSuchUser(email))))
    }

    /** userStore.CreateUser: inserts a row for the record as given, unless
        the database refuses it. A new e-mail then finds that row and the id
        the database assigned it; an e-mail already present keeps finding its
        earlier row. */
    method CreateUser(u: User) returns (err: Option<string>)
      modifies this
      ensures err == insertError(old(users), u)
      ensures err.Some? ==> users == old(users) && ids == old(ids)
      ensures err.None? ==> users == Inserted(old(users), u.email, u)
      ensures err.None? ==> ids == Inserted(old(ids), u.email, assignId(old(ids)))
      ensures err.None? ==> u.email in users && u.email in ids
      ensures forall e :: e in old(ids) ==> e in ids && ids[e] == old(ids)[e]
      ensures old(Valid()) ==> Valid()
    {
      err := insertError(users, u);
      if err.None? {
        var id := assignId(ids);
        users := Inserted(users, u.email, u);
        ids := Inserted(ids, u.email, id);
      }
    }
  }
}

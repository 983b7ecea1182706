/** The SQLite store of database/db.py as in-memory tables.  `servers` and
    `advertisements` keep their rows in rowid order; each AUTOINCREMENT
    table carries the last id it handed out (SQLite's `sqlite_sequence`).
    `users` is keyed by its INTEGER PRIMARY KEY. */
module Store {
  import opened Wrappers

  datatype Server = Server(id: int, name: string, channelId: string, moderationGroupId: string)

  /** `created_at` is left out: there is no clock in the model. */
  datatype Advertisement =
    Advertisement(id: int, userId: int, serverId: int, text: string, photoId: Option<string>, status: string)

  datatype User = User(username: Option<string>, fullName: Option<string>, role: string)

  /** Column defaults and the status values the bot writes. */
  const Pending := "pending"
  const Approved := "approved"
  const Rejected := "rejected"
  const UserRole := "user"
  const AdminRole := "admin"

  /** The largest integer Python's sqlite3 binds as a query parameter; a
      larger one raises OverflowError before the query runs. */
  const MaxInteger := 0x7FFF_FFFF_FFFF_FFFF

  /** Ids strictly increase along the table and never exceed the sequence. */
  ghost predicate Ordered<T>(rows: seq<T>, idOf: T -> int, last: nat) {
    && (forall i, j :: 0 <= i < j < |rows| ==> idOf(rows[i]) < idOf(rows[j]))
    && (forall i :: 0 <= i < |rows| ==> 0 < idOf(rows[i]) <= last)
  }

  /** `SELECT * FROM t WHERE id = ?` followed by `fetchone()`. */
  function FindBy<T>(rows: seq<T>, idOf: T -> int, id: int): (r: Option<T>)
    ensures r.Some? ==> r.value in rows && idOf(r.value) == id
    ensures r.None? <==> forall i :: 0 <= i < |rows| ==> idOf(rows[i]) != id
  {
    if rows == [] then None
    else if idOf(rows[0]) == id then Some(rows[0])
    else FindBy(rows[1..], idOf, id)
  }

  /** A row appended with a larger id than every earlier row is what the
      lookup of that id returns. */
  lemma {:induction false} FindAppended<T>(rows: seq<T>, idOf: T -> int, row: T)
    requires forall i :: 0 <= i < |rows| ==> idOf(rows[i]) < idOf(row)
    ensures FindBy(rows + [row], idOf, idOf(row)) == Some(row)
  {
    if rows == [] {
      assert rows + [row] == [row];
    } else {
      assert (rows + [row])[1..] == rows[1..] + [row];
      FindAppended(rows[1..], idOf, row);
    }
  }

  /** Appending a row does not change the lookup of any other id. */
  lemma {:induction false} FindOther<T>(rows: seq<T>, idOf: T -> int, row: T, id: int)
    requires id != idOf(row)
    ensures FindBy(rows + [row], idOf, id) == FindBy(rows, idOf, id)
  {
    if rows == [] {
      assert rows + [row] == [row];
    } else {
      assert (rows + [row])[1..] == rows[1..] + [row];
      FindOther(rows[1..], idOf, row, id);
    }
  }

  function ServerId(s: Server): int { s.id }
  function AdId(a: Advertisement): int { a.id }

  /** `UPDATE advertisements SET status = ? WHERE id = ?` on a table. */
  function WithStatus(rows: seq<Advertisement>, id: int, status: string): (r: seq<Advertisement>)
    ensures |r| == |rows|
    ensures forall i :: 0 <= i < |rows| && rows[i].id != id ==> r[i] == rows[i]
    ensures forall i :: 0 <= i < |rows| && rows[i].id == id ==> r[i] == rows[i].(status := status)
  {
    if rows == [] then []
    else [if rows[0].id == id then rows[0].(status := status) else rows[0]] + WithStatus(rows[1..], id, status)
  }

  /** An update of an id no row has leaves the table as it was. */
  lemma WithStatusAbsent(rows: seq<Advertisement>, id: int, status: string)
    requires FindBy(rows, AdId, id).None?
    ensures WithStatus(rows, id, status) == rows
  {
  }

  /** After the update, the row with that id reads back with the new status
      and every other field as before. */
  lemma {:induction false} WithStatusReadBack(rows: seq<Advertisement>, id: int, status: string)
    requires FindBy(rows, AdId, id).Some?
    ensures FindBy(WithStatus(rows, id, status), AdId, id) == Some(FindBy(rows, AdId, id).value.(status := status))
  {
    if rows[0].id != id {
      WithStatusReadBack(rows[1..], id, status);
    }
  }

  /** Two tables with the same ids at the same positions are ordered alike. */
  lemma SameIdsOrdered<T>(rows: seq<T>, other: seq<T>, idOf: T -> int, last: nat)
    requires Ordered(rows, idOf, last) && |other| == |rows|
    requires forall i :: 0 <= i < |rows| ==> idOf(other[i]) == idOf(rows[i])
    ensures Ordered(other, idOf, last)
  {
    forall i, j | 0 <= i < j < |other|
      ensures idOf(other[i]) < idOf(other[j])
    {
      assert idOf(other[i]) == idOf(rows[i]) && idOf(other[j]) == idOf(rows[j]);
    }
  }

  /** A status update keeps every id, so it keeps the table ordered; an
      unknown id leaves the table as it was, and a known one reads back with
      the new status. */
  lemma WithStatusFacts(rows: seq<Advertisement>, id: int, status: string, last: nat)
    requires Ordered(rows, AdId, last)
    ensures Ordered(WithStatus(rows, id, status), AdId, last)
    ensures FindBy(rows, AdId, id).None? ==> WithStatus(rows, id, status) == rows
    ensures FindBy(rows, AdId, id).Some? ==>
      FindBy(WithStatus(rows, id, status), AdId, id) == Some(FindBy(rows, AdId, id).value.(status := status))
  {
    var updated := WithStatus(rows, id, status);
    forall i | 0 <= i < |rows|
      ensures AdId(updated[i]) == AdId(rows[i])
    {
    }
    SameIdsOrdered(rows, updated, AdId, last);
    if FindBy(rows, AdId, id).None? {
      WithStatusAbsent(rows, id, status);
    } else {
      WithStatusReadBack(rows, id, status);
    }
  }

  class Database {
    var servers: seq<Server>
    var advertisements: seq<Advertisement>
    var users: map<int, User>
    var serverSeq: nat
    var advertisementSeq: nat

    ghost predicate Valid()
      reads this
    {
      Ordered(servers, ServerId, serverSeq) && Ordered(advertisements, AdId, advertisementSeq)
    }

    /** A freshly created database file: `_create_tables` on an empty file. */
    constructor ()
      ensures Valid()
      ensures servers == [] && advertisements == [] && users == map[]
      ensures serverSeq == 0 && advertisementSeq == 0
    {
      servers, advertisements, users := [], [], map[];
      serverSeq, advertisementSeq := 0, 0;
    }

    /** `add_server`: INSERT with AUTOINCREMENT; a NULL in any column
        violates NOT NULL and leaves the table as it was. */
    method AddServer(name: Option<string>, channelId: Option<string>, moderationGroupId: Option<string>)
      returns (r: Result<int, Exception>)
      requires Valid()
      modifies this
      ensures Valid()
      ensures r.Err? <==> name.None? || channelId.None? || moderationGroupId.None?
      ensures r.Err? ==> r.error == IntegrityError && servers == old(servers) && serverSeq == old(serverSeq)
      ensures r.Ok? ==> && r.value == old(serverSeq) + 1 == serverSeq
                        && servers == old(servers) + [Server(r.value, name.value, channelId.value, moderationGroupId.value)]
                        && (forall i :: 0 <= i < |old(servers)| ==> old(servers)[i].id < r.value)
                        && GetServer(r.value) == Some(servers[|servers| - 1])
      ensures advertisements == old(advertisements) && advertisementSeq == old(advertisementSeq)
      ensures users == old(users)
    {
      if name.None? || channelId.None? || moderationGroupId.None? {
        return Err(IntegrityError);
      }
      var row := Server(serverSeq + 1, name.value, channelId.value, moderationGroupId.value);
      FindAppended(servers, ServerId, row);
      servers := servers + [row];
      serverSeq := serverSeq + 1;
      r := Ok(row.id);
    }

    /** `get_servers`: one (id, name) pair per stored server, in rowid order. */
    function GetServers(): (rows: seq<(int, string)>)
      reads this
      ensures |rows| == |servers|
      ensures forall i :: 0 <= i < |servers| ==> rows[i] == (servers[i].id, servers[i].name)
    {
      seq(|servers|, i requires 0 <= i < |servers| reads this => (servers[i].id, servers[i].name))
    }

    /** `get_server`: the row with that id, or None. */
    function GetServer(serverId: int): (row: Option<Server>)
      reads this
      ensures row.Some? ==> row.value in servers && row.value.id == serverId
      ensures row.None? <==> forall i :: 0 <= i < |servers| ==> servers[i].id != serverId
    {
      FindBy(servers, ServerId, serverId)
    }

    /** `add_advertisement`: INSERT with AUTOINCREMENT and status 'pending'.
        A NULL text violates NOT NULL; the foreign key to `servers` is not
        enforced (SQLite leaves foreign keys off by default). */
    method AddAdvertisement(userId: int, serverId: int, text: Option<string>, photoId: Option<string>)
      returns (r: Result<int, Exception>)
      requires Valid()
      modifies this
      ensures Valid()
      ensures r.Err? <==> text.None?
      ensures r.Err? ==> r.error == IntegrityError && advertisements == old(advertisements)
                         && advertisementSeq == old(advertisementSeq)
      ensures r.Ok? ==> && r.value == old(advertisementSeq) + 1 == advertisementSeq
                        && advertisements == old(advertisements) + [Advertisement(r.value, userId, serverId, text.value, photoId, Pending)]
                        && GetAdvertisement(r.value) == Some(Advertisement(r.value, userId, serverId, text.value, photoId, Pending))
                        && (forall id :: id != r.value ==> GetAdvertisement(id) == old(GetAdvertisement(id)))
      ensures servers == old(servers) && serverSeq == old(serverSeq) && users == old(users)
    {
      if text.None? {
        return Err(IntegrityError);
      }
      var row := Advertisement(advertisementSeq + 1, userId, serverId, text.value, photoId, Pending);
      FindAppended(advertisements, AdId, row);
      forall id | id != row.id
        ensures FindBy(advertisements + [row], AdId, id) == FindBy(advertisements, AdId, id)
      {
        FindOther(advertisements, AdId, row, id);
      }
      advertisements := advertisements + [row];
      advertisementSeq := advertisementSeq + 1;
      r := Ok(row.id);
    }

    /** `update_advertisement_status`: only the status of the row with that
        id changes; an unknown id changes nothing. */
    method UpdateAdvertisementStatus(adId: int, status: string)
      requires Valid()
      modifies this
      ensures Valid()
      ensures advertisements == WithStatus(old(advertisements), adId, status)
      ensures old(GetAdvertisement(adId)).None? ==> advertisements == old(advertisements)
      ensures old(GetAdvertisement(adId)).Some? ==>
                GetAdvertisement(adId) == Some(old(GetAdvertisement(adId)).value.(status := status))
      ensures advertisementSeq == old(advertisementSeq)
      ensures servers == old(servers) && serverSeq == old(serverSeq) && users == old(users)
    {
      ghost var found := FindBy(advertisements, AdId, adId);
      WithStatusFacts(advertisements, adId, status, advertisementSeq);
      advertisements := WithStatus(advertisements, adId, status);
      assert found.Some? ==> FindBy(advertisements, AdId, adId) == Some(found.value.(status := status));
    }

    /** `get_advertisement`: the row with that id, or None. */
    function GetAdvertisement(adId: int): (row: Option<Advertisement>)
      reads this
      ensures row.Some? ==> row.value in advertisements && row.value.id == adId
      ensures row.None? <==> forall i :: 0 <= i < |advertisements| ==> advertisements[i].id != adId
    {
      FindBy(advertisements, AdId, adId)
    }

    /** `add_user_if_not_exists`: inserts with role 'user' only when the id is
        new; an existing row is never touched. */
    method AddUserIfNotExists(userId: int, username: Option<string>, fullName: Option<string>)
      modifies this
      ensures users == Registered(old(users), userId, User(username, fullName, UserRole))
      ensures servers == old(servers) && serverSeq == old(serverSeq)
      ensures advertisements == old(advertisements) && advertisementSeq == old(advertisementSeq)
    {
      if userId !in users {
        users := users[userId := User(username, fullName, UserRole)];
      }
    }

    /** `get_user_role`: the stored role, or "user" for an unknown id. */
    function GetUserRole(userId: int): (role: string)
      reads this
      ensures userId in users ==> role == users[userId].role
      ensures userId !in users ==> role == UserRole
    {
      if userId in users then users[userId].role else UserRole
    }

    /** `is_admin`: an unknown user is never an administrator. */
    predicate IsAdmin(userId: int)
      reads this
      ensures IsAdmin(userId) <==> userId in users && users[userId].role == AdminRole
    {
      GetUserRole(userId) == AdminRole
    }
  }

  /** The users table after a conditional insert of `u` under `userId`:
      the new row appears only for an id that had none, and every existing
      row, that one included, stays as it was. */
  function Registered(users: map<int, User>, userId: int, u: User): (r: map<int, User>)
    ensures r.Keys == users.Keys + {userId}
    ensures forall id :: id in users ==> r[id] == users[id]
    ensures userId !in users ==> r[userId] == u
  {
    if userId in users then users else users[userId := u]
  }

  /** Registering a user twice is the same as registering once, whatever
      the second registration carries. */
  lemma RegisteredIdempotent(users: map<int, User>, userId: int, u: User, v: User)
    ensures Registered(Registered(users, userId, u), userId, v) == Registered(users, userId, u)
  {
  }
}

/**
 * The `users` collection: creation with the ACTIVE default, partial updates, look-ups by id and by
 * e-mail, the filtered listing, and the merge that combines the two range queries of a search.
 */
module Users {
  import opened Wrappers
  import opened Store

  datatype UserStatus = Active | Blocked | InReview

  datatype Gender = Male | Female | Other | PreferNotToSay

  datatype User = User(
    name: string,
    email: string,
    phone: Option<string>,
    gender: Option<Gender>,
    walletAddress: Option<string>,
    ensName: Option<string>,
    status: UserStatus,
    profileImage: Option<string>,
    totalMissionsCompleted: Option<int>,
    totalRewardsEarned: Option<real>,
    level: Option<int>,
    badges: Option<seq<string>>,
    createdAt: nat,
    updatedAt: nat)

  /** `CreateUserData`; the service tolerates a missing status, so it is optional here. */
  datatype UserData = UserData(
    name: string,
    email: string,
    phone: Option<string>,
    gender: Option<Gender>,
    walletAddress: Option<string>,
    ensName: Option<string>,
    status: Option<UserStatus>,
    profileImage: Option<string>,
    totalMissionsCompleted: Option<int>,
    totalRewardsEarned: Option<real>,
    level: Option<int>,
    badges: Option<seq<string>>)

  /** `createUser`'s document: the data, ACTIVE unless a status is given, both stamps `now`. */
  function NewUser(data: UserData, now: nat): (u: User)
    ensures u.status == if data.status.Some? then data.status.value else Active
    ensures u.createdAt == now && u.updatedAt == now
    ensures u.name == data.name && u.email == data.email && u.phone == data.phone && u.gender == data.gender
    ensures u.walletAddress == data.walletAddress && u.ensName == data.ensName && u.profileImage == data.profileImage
    ensures u.totalMissionsCompleted == data.totalMissionsCompleted && u.totalRewardsEarned == data.totalRewardsEarned
    ensures u.level == data.level && u.badges == data.badges
  {
    User(
      data.name, data.email, data.phone, data.gender, data.walletAddress, data.ensName,
      data.status.GetOr(Active), data.profileImage, data.totalMissionsCompleted, data.totalRewardsEarned,
      data.level, data.badges, now, now)
  }

  /** `UpdateUserData`: any field except the id and the two stamps. */
  datatype Patch = Patch(
    name: Write<string>,
    email: Write<string>,
    phone: Write<string>,
    gender: Write<Gender>,
    walletAddress: Write<string>,
    ensName: Write<string>,
    status: Write<UserStatus>,
    profileImage: Write<string>,
    totalMissionsCompleted: Write<int>,
    totalRewardsEarned: Write<real>,
    level: Write<int>,
    badges: Write<seq<string>>)

  const NoChange := Patch(Keep, Keep, Keep, Keep, Keep, Keep, Keep, Keep, Keep, Keep, Keep, Keep)

  function Onto<T>(w: Write<T>, current: Option<T>): Option<T> {
    match w
    case Keep => current
    case Put(v) => Some(v)
  }

  /** `updateUser`'s write: the given fields and a fresh `updatedAt`. */
  function Updated(u: User, p: Patch, now: nat): (r: User)
    ensures r.updatedAt == now && r.createdAt == u.createdAt
    ensures p.name.Keep? ==> r.name == u.name
    ensures p.email.Keep? ==> r.email == u.email
    ensures p.phone.Keep? ==> r.phone == u.phone
    ensures p.gender.Keep? ==> r.gender == u.gender
    ensures p.walletAddress.Keep? ==> r.walletAddress == u.walletAddress
    ensures p.ensName.Keep? ==> r.ensName == u.ensName
    ensures p.status.Keep? ==> r.status == u.status
    ensures p.profileImage.Keep? ==> r.profileImage == u.profileImage
    ensures p.totalMissionsCompleted.Keep? ==> r.totalMissionsCompleted == u.totalMissionsCompleted
    ensures p.totalRewardsEarned.Keep? ==> r.totalRewardsEarned == u.totalRewardsEarned
    ensures p.level.Keep? ==> r.level == u.level
    ensures p.badges.Keep? ==> r.badges == u.badges
    ensures p.status.Put? ==> r.status == p.status.value
    ensures p.email.Put? ==> r.email == p.email.value
    ensures p.name.Put? ==> r.name == p.name.value
    ensures p.phone.Put? ==> r.phone == Some(p.phone.value)
    ensures p.gender.Put? ==> r.gender == Some(p.gender.value)
    ensures p.walletAddress.Put? ==> r.walletAddress == Some(p.walletAddress.value)
    ensures p.ensName.Put? ==> r.ensName == Some(p.ensName.value)
    ensures p.profileImage.Put? ==> r.profileImage == Some(p.profileImage.value)
    ensures p.totalMissionsCompleted.Put? ==> r.totalMissionsCompleted == Some(p.totalMissionsCompleted.value)
    ensures p.totalRewardsEarned.Put? ==> r.totalRewardsEarned == Some(p.totalRewardsEarned.value)
    ensures p.level.Put? ==> r.level == Some(p.level.value)
    ensures p.badges.Put? ==> r.badges == Some(p.badges.value)
  {
    User(
      p.name.Apply(u.name), p.email.Apply(u.email), Onto(p.phone, u.phone), Onto(p.gender, u.gender),
      Onto(p.walletAddress, u.walletAddress), Onto(p.ensName, u.ensName), p.status.Apply(u.status),
      Onto(p.profileImage, u.profileImage), Onto(p.totalMissionsCompleted, u.totalMissionsCompleted),
      Onto(p.totalRewardsEarned, u.totalRewardsEarned), Onto(p.level, u.level), Onto(p.badges, u.badges),
      u.createdAt, now)
  }

  /** `updateUserStatus` writes the status and the stamp and nothing else. */
  lemma StatusUpdate(u: User, status: UserStatus, now: nat)
    ensures Updated(u, NoChange.(status := Put(status)), now) == u.(status := status, updatedAt := now)
  {
  }

  /** The numeric fields a listing can order by. */
  datatype Field = TotalMissionsCompleted | Level | CreatedAt | UpdatedAt

  function Key(f: Field): User -> Option<int> {
    match f
    case TotalMissionsCompleted => (u: User) => u.totalMissionsCompleted
    case Level => (u: User) => u.level
    case CreatedAt => (u: User) => Some(u.createdAt)
    case UpdatedAt => (u: User) => Some(u.updatedAt)
  }

  datatype Filters = Filters(
    status: Option<UserStatus>,
    limit: nat,
    orderByField: Option<Field>,
    orderDirection: Option<Direction>)

  predicate HasEmail(email: string, u: User) {
    u.email == email
  }

  // The merge step of `searchUsers`: a JavaScript `Map` filled by `set` over the e-mail matches
  // followed by the name matches. An id keeps the position of its first `set` and the value of
  // its last one.

  /** The ids of `rows`, each at its first occurrence. */
  function FirstIds<T>(rows: seq<Row<T>>): (r: seq<nat>)
    ensures forall id :: id in r <==> exists k :: 0 <= k < |rows| && rows[k].id == id
  {
    if rows == [] then []
    else
      var prior := FirstIds(rows[..|rows| - 1]);
      var last := rows[|rows| - 1];
      if last.id in prior then prior else prior + [last.id]
  }

  /** For each id of `rows`, the document of its last occurrence. */
  function LastDocs<T>(rows: seq<Row<T>>): (r: map<nat, T>)
    ensures forall id :: id in r <==> exists k :: 0 <= k < |rows| && rows[k].id == id
  {
    if rows == [] then map[]
    else
      var last := rows[|rows| - 1];
      LastDocs(rows[..|rows| - 1])[last.id := last.doc]
  }

  /** `Array.from(users.values())` after the `forEach` over `rows`. */
  function Merged<T>(rows: seq<Row<T>>): (r: seq<Row<T>>)
    ensures |r| == |FirstIds(rows)|
    ensures forall k :: 0 <= k < |r| ==> r[k].id == FirstIds(rows)[k]
    ensures forall k :: 0 <= k < |r| ==> r[k].id in LastDocs(rows) && r[k].doc == LastDocs(rows)[r[k].id]
  {
    var ids := FirstIds(rows);
    var docs := LastDocs(rows);
    assert forall id :: id in ids ==> id in docs;
    seq(|ids|, k requires 0 <= k < |ids| => Row(ids[k], docs[ids[k]]))
  }

  predicate Distinct(ids: seq<nat>) {
    forall i, j :: 0 <= i < j < |ids| ==> ids[i] != ids[j]
  }

  /** No id is listed twice. */
  lemma {:induction false} FirstIdsDistinct<T>(rows: seq<Row<T>>)
    ensures Distinct(FirstIds(rows))
  {
    if rows != [] {
      FirstIdsDistinct(rows[..|rows| - 1]);
    }
  }

  /** Appending rows only appends ids: the ids of the first part keep their places. */
  lemma {:induction false} FirstIdsPrefix<T>(a: seq<Row<T>>, b: seq<Row<T>>)
    ensures |FirstIds(a)| <= |FirstIds(a + b)|
    ensures FirstIds(a + b)[..|FirstIds(a)|] == FirstIds(a)
  {
    if b == [] {
      assert a + b == a;
    } else {
      var b' := b[..|b| - 1];
      assert (a + b)[..|a + b| - 1] == a + b';
      FirstIdsPrefix(a, b');
    }
  }

  /** The document kept for an id is the one its last occurrence carries. */
  lemma {:induction false} LastDocsLast<T>(rows: seq<Row<T>>, i: nat)
    requires i < |rows|
    requires forall j :: i < j < |rows| ==> rows[j].id != rows[i].id
    ensures rows[i].id in LastDocs(rows) && LastDocs(rows)[rows[i].id] == rows[i].doc
  {
    if i < |rows| - 1 {
      LastDocsLast(rows[..|rows| - 1], i);
    }
  }

  /** A user matched by a name keeps the document of its last name match. */
  lemma NameMatchKeepsDoc<T>(emailRows: seq<Row<T>>, nameRows: seq<Row<T>>, k: nat, j: nat)
    requires k < |Merged(emailRows + nameRows)| && j < |nameRows|
    requires nameRows[j].id == Merged(emailRows + nameRows)[k].id
    requires forall j' :: j < j' < |nameRows| ==> nameRows[j'].id != nameRows[j].id
    ensures Merged(emailRows + nameRows)[k].doc == nameRows[j].doc
  {
    var rows := emailRows + nameRows;
    var i := |emailRows| + j;
    assert rows[i] == nameRows[j];
    forall j' | i < j' < |rows| ensures rows[j'].id != rows[i].id {
      assert rows[j'] == nameRows[j' - |emailRows|];
    }
    LastDocsLast(rows, i);
  }

  /**
   * The merge of the e-mail matches and then the name matches lists every matched user exactly
   * once; the e-mail matches come first, in their own order; a user matched by a name keeps the
   * document of its name match.
   */
  lemma SearchMerge<T>(emailRows: seq<Row<T>>, nameRows: seq<Row<T>>)
    ensures var r := Merged(emailRows + nameRows);
      && Distinct(seq(|r|, k requires 0 <= k < |r| => r[k].id))
      && (forall id :: (exists k :: 0 <= k < |r| && r[k].id == id) <==> id in FirstIds(emailRows + nameRows))
      && |FirstIds(emailRows)| <= |r|
      && (forall k :: 0 <= k < |FirstIds(emailRows)| ==> r[k].id == FirstIds(emailRows)[k])
      && (forall k, j :: 0 <= k < |r| && 0 <= j < |nameRows| && nameRows[j].id == r[k].id
                         && (forall j' :: j < j' < |nameRows| ==> nameRows[j'].id != r[k].id)
                         ==> r[k].doc == nameRows[j].doc)
  {
    var rows := emailRows + nameRows;
    var r := Merged(rows);
    var ids := seq(|r|, k requires 0 <= k < |r| => r[k].id);
    assert ids == FirstIds(rows);
    FirstIdsDistinct(rows);
    FirstIdsPrefix(emailRows, nameRows);
    forall k, j | 0 <= k < |r| && 0 <= j < |nameRows| && nameRows[j].id == r[k].id
                  && (forall j' :: j < j' < |nameRows| ==> nameRows[j'].id != r[k].id)
      ensures r[k].doc == nameRows[j].doc
    {
      NameMatchKeepsDoc(emailRows, nameRows, k, j);
    }
  }

  class UserService {
    var docs: map<nat, User>
    var nextId: nat

    predicate Valid()
      reads this
    {
      forall id :: id in docs ==> id < nextId
    }

    constructor ()
      ensures Valid() && docs == map[] && nextId == 0
    {
      docs := map[];
      nextId := 0;
    }

    /** `createUser`. */
    method CreateUser(data: UserData, now: nat) returns (id: nat)
      requires Valid()
      modifies this
      ensures Valid()
      ensures id == old(nextId) && id !in old(docs) && nextId == old(nextId) + 1
      ensures docs == old(docs)[id := NewUser(data, now)]
    {
      id := nextId;
      docs := docs[id := NewUser(data, now)];
      nextId := nextId + 1;
    }

    /** `getUserById`. */
    function GetUserById(id: nat): (r: Option<User>)
      reads this
      ensures r.Some? <==> id in docs
      ensures r.Some? ==> r.value == docs[id]
    {
      if id in docs then Some(docs[id]) else None
    }

    /** `getUserByEmail`: the first user, in document order, with exactly that e-mail. */
    function GetUserByEmail(email: string): (r: Option<Row<User>>)
      reads this
      requires Valid()
      ensures r.None? <==> forall id :: id in docs ==> docs[id].email != email
      ensures r.Some? ==> r.value.id in docs && docs[r.value.id] == r.value.doc && r.value.doc.email == email
      ensures r.Some? ==> forall id :: id in docs && docs[id].email == email ==> r.value.id <= id
    {
      FirstMatchIsSmallest(docs, nextId, (u: User) => HasEmail(email, u));
      First(Where(Scan(docs, nextId), (u: User) => HasEmail(email, u)))
    }

    /** `updateUser`. */
    method UpdateUser(id: nat, patch: Patch, now: nat) returns (r: Outcome<string>)
      requires Valid()
      modifies this
      ensures Valid() && nextId == old(nextId)
      ensures id in old(docs) ==> r == Pass && docs == old(docs)[id := Updated(old(docs)[id], patch, now)]
      ensures id !in old(docs) ==> r == Fail(NoDocumentToUpdate) && docs == old(docs)
    {
      if id !in docs {
        return Fail(NoDocumentToUpdate);
      }
      docs := docs[id := Updated(docs[id], patch, now)];
      r := Pass;
    }

    /** `updateUserStatus`. */
    method UpdateUserStatus(id: nat, status: UserStatus, now: nat) returns (r: Outcome<string>)
      requires Valid()
      modifies this
      ensures Valid() && nextId == old(nextId)
      ensures id in old(docs) ==> r == Pass && docs == old(docs)[id := old(docs)[id].(status := status, updatedAt := now)]
      ensures id !in old(docs) ==> r == Fail(NoDocumentToUpdate) && docs == old(docs)
    {
      if id in docs {
        StatusUpdate(docs[id], status, now);
      }
      r := UpdateUser(id, NoChange.(status := Put(status)), now);
    }

    /** `deleteUser`. */
    method DeleteUser(id: nat)
      requires Valid()
      modifies this
      ensures Valid() && nextId == old(nextId)
      ensures docs == old(docs) - {id}
    {
      docs := docs - {id};
    }

    /**
     * `getUsers`: the users with the given status, ordered only when an order field is given
     * (descending unless told otherwise) and in document order otherwise, at most `limit` of them.
     */
    function GetUsers(f: Filters): (r: seq<Row<User>>)
      reads this
      requires Valid()
      ensures forall row :: row in r ==> row.id in docs && docs[row.id] == row.doc
      ensures f.status.Some? ==> forall row :: row in r ==> row.doc.status == f.status.value
      ensures f.orderByField.Some? ==> SortedBy(r, Key(f.orderByField.value), f.orderDirection.GetOr(Desc))
      ensures f.orderByField.None? ==> Ascending(r)
      ensures f.limit > 0 ==> |r| <= f.limit
    {
      var matching := Where(Scan(docs, nextId), (u: User) => f.status.Some? ==> u.status == f.status.value);
      WhereAscending(Scan(docs, nextId), (u: User) => f.status.Some? ==> u.status == f.status.value);
      match f.orderByField
      case Some(field) => Query(matching, (u: User) => true, Key(field), f.orderDirection.GetOr(Desc), None, f.limit)
      case None => LimitIfTruthy(matching, f.limit)
    }

    /** With no order field and no limit, the listing is every user with the status, in document order. */
    lemma GetUsersUnordered(f: Filters)
      requires Valid() && f.orderByField.None? && f.limit == 0
      ensures forall row :: row in GetUsers(f) <==>
                (row.id in docs && docs[row.id] == row.doc && (f.status.Some? ==> row.doc.status == f.status.value))
    {
    }

    /**
     * Nothing that should come first is left out: a user with the status (carrying the order
     * field, when there is one) that is missing means the listing is full and every listed user
     * precedes it in the order, or, without an order field, has a smaller id.
     */
    lemma GetUsersTopN(f: Filters, id: nat)
      requires Valid()
      requires id in docs && (f.status.Some? ==> docs[id].status == f.status.value)
      requires f.orderByField.Some? ==> Key(f.orderByField.value)(docs[id]).Some?
      requires Row(id, docs[id]) !in GetUsers(f)
      ensures f.limit > 0 && |GetUsers(f)| == f.limit
      ensures f.orderByField.Some? ==>
        forall row :: row in GetUsers(f) ==> Precedes(row, Row(id, docs[id]), Key(f.orderByField.value), f.orderDirection.GetOr(Desc))
      ensures f.orderByField.None? ==> forall row :: row in GetUsers(f) ==> row.id < id
    {
      var m := Row(id, docs[id]);
      var matching := Where(Scan(docs, nextId), (u: User) => f.status.Some? ==> u.status == f.status.value);
      WhereAscending(Scan(docs, nextId), (u: User) => f.status.Some? ==> u.status == f.status.value);
      assert m in Scan(docs, nextId);
      assert m in matching;
      var r := GetUsers(f);
      match f.orderByField
      case Some(field) =>
        QueryTopN(matching, (u: User) => true, Key(field), f.orderDirection.GetOr(Desc), None, f.limit, m);
      case None =>
        assert r == LimitIfTruthy(matching, f.limit);
        var k :| 0 <= k < |matching| && matching[k] == m;
        assert |r| <= k;
        forall row | row in r ensures row.id < id {
          var i :| 0 <= i < |r| && r[i] == row;
          assert matching[i] == row;
        }
    }

    /**
     * `searchUsers`, given the matches of the e-mail range query and of the name range query:
     * their merge by id, cut to `limitResults` entries.
     */
    method SearchUsers(emailRows: seq<Row<User>>, nameRows: seq<Row<User>>, limitResults: nat := 10)
      returns (r: seq<Row<User>>)
      ensures r == Take(Merged(emailRows + nameRows), limitResults)
      ensures |r| <= limitResults
    {
      var rows := emailRows + nameRows;
      var order: seq<nat> := [];
      var values: map<nat, User> := map[];
      var i := 0;
      while i < |rows|
        invariant 0 <= i <= |rows|
        invariant order == FirstIds(rows[..i]) && values == LastDocs(rows[..i])
      {
        assert rows[..i + 1][..i] == rows[..i];
        if rows[i].id !in order {
          order := order + [rows[i].id];
        }
        values := values[rows[i].id := rows[i].doc];
        i := i + 1;
      }
      assert rows[..i] == rows;
      assert forall id :: id in order ==> id in values;
      var all := seq(|order|, k requires 0 <= k < |order| => Row(order[k], values[order[k]]));
      r := Take(all, limitResults);
    }

    /** `userExists`. */
    function UserExists(id: nat): (b: bool)
      reads this
      ensures b <==> GetUserById(id).Some?
      ensures b <==> id in docs
    {
      GetUserById(id) != None
    }

    /** `emailExists`. */
    function EmailExists(email: string): (b: bool)
      reads this
      requires Valid()
      ensures b <==> GetUserByEmail(email).Some?
      ensures b <==> exists id :: id in docs && docs[id].email == email
    {
      GetUserByEmail(email) != None
    }
  }
}

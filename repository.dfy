/**
 * The two JPA repositories the controllers use, as one in-memory database:
 * a users table and a receipts table keyed by their generated ids. Rows are
 * values; saving an entity writes its current field values into the table.
 */
module Repository {
  import opened Wrappers
  import opened ReceiptModel

  /** No two stored users share a username. */
  ghost predicate UniqueUsernames(users: map<int, User>)
  {
    forall j, k :: j in users && k in users && users[j].username == users[k].username ==> j == k
  }

  /** Some stored user has this username. */
  predicate IsTaken(users: map<int, User>, username: string)
  {
    exists k :: k in users && users[k].username == username
  }

  /** The receipt belongs to a user that is stored under its own id. */
  predicate OwnedByKnownUser(row: ReceiptRow, users: map<int, User>)
  {
    row.user.Some? && row.user.value.id in users && users[row.user.value.id] == row.user.value
  }

  /** The id of the receipt's owner, the column findByUserId compares. */
  function OwnerId(row: ReceiptRow): Option<int>
  {
    if row.user.Some? then Some(row.user.value.id) else None
  }

  class Database {
    var users: map<int, User>
    var receipts: map<int, ReceiptRow>
    /** Identity columns: the next id the database will hand out. */
    var nextUserId: int
    var nextReceiptId: int

    ghost predicate Valid()
      reads this
    {
      && (forall k :: k in users ==> k < nextUserId && users[k].id == k)
      && UniqueUsernames(users)
      && (forall k :: k in receipts ==> k < nextReceiptId && receipts[k].id == Some(k))
      && (forall k :: k in receipts ==> OwnedByKnownUser(receipts[k], users))
    }

    constructor()
      ensures Valid() && users == map[] && receipts == map[]
    {
      users, receipts := map[], map[];
      nextUserId, nextReceiptId := 1, 1;
    }

    /** UserRepository.findById. */
    function FindUserById(id: int): (u: Option<User>)
      reads this
      ensures u.Some? <==> id in users
      ensures u.Some? ==> u.value == users[id]
    {
      if id in users then Some(users[id]) else None
    }

    /** UserRepository.findByUsername: every stored user with that name (at most one while Valid). */
    function FindByUsername(username: string): (found: set<User>)
      reads this
      ensures forall k :: k in users ==> (users[k] in found <==> users[k].username == username)
      ensures forall u :: u in found ==> u.username == username && exists k :: k in users && users[k] == u
      ensures found != {} <==> IsTaken(users, username)
    {
      var found := set k | k in users && users[k].username == username :: users[k];
      assert IsTaken(users, username) ==> found != {} by {
        if IsTaken(users, username) {
          var k :| k in users && users[k].username == username;
          assert users[k] in found;
        }
      }
      found
    }

    /** ReceiptRepository.findById. */
    function FindReceiptById(id: int): (r: Option<ReceiptRow>)
      reads this
      ensures r.Some? <==> id in receipts
      ensures r.Some? ==> r.value == receipts[id]
    {
      if id in receipts then Some(receipts[id]) else None
    }

    /** ReceiptRepository.findByUserId: the receipts whose owner has this id. */
    function FindByUserId(userId: int): (rows: map<int, ReceiptRow>)
      reads this
      ensures forall k :: k in rows <==> k in receipts && OwnerId(receipts[k]) == Some(userId)
      ensures forall k :: k in rows ==> rows[k] == receipts[k]
    {
      map k | k in receipts && OwnerId(receipts[k]) == Some(userId) :: receipts[k]
    }

    /** UserRepository.save of a new User: the database assigns the next id. */
    method SaveUser(username: string, password: string) returns (u: User)
      requires Valid() && !IsTaken(users, username)
      modifies this
      ensures Valid()
      ensures u == User(old(nextUserId), username, password) && u.id !in old(users)
      ensures users == old(users)[u.id := u]
      ensures receipts == old(receipts)
    {
      u := User(nextUserId, username, password);
      users := users[u.id := u];
      nextUserId := nextUserId + 1;
    }

    /**
     * ReceiptRepository.save: a receipt without an id is inserted under a
     * newly generated id (which is written back into the entity); one with
     * an id overwrites the stored row.
     */
    method SaveReceipt(r: Receipt) returns (saved: ReceiptRow)
      requires Valid()
      requires r.id.None? || r.id.value in receipts
      requires OwnedByKnownUser(r.Row(), users)
      modifies this, r
      ensures Valid()
      ensures old(r.id).None? ==> r.Row() == old(r.Row()).(id := Some(old(nextReceiptId)))
      ensures old(r.id).Some? ==> r.Row() == old(r.Row())
      ensures old(r.id).None? ==> old(nextReceiptId) !in old(receipts)
      ensures saved == r.Row() && saved.id.Some?
      ensures receipts == old(receipts)[saved.id.value := saved]
      ensures users == old(users)
    {
      if r.id.None? {
        r.SetId(Some(nextReceiptId));
        nextReceiptId := nextReceiptId + 1;
      }
      saved := r.Row();
      receipts := receipts[saved.id.value := saved];
    }

    /** ReceiptRepository.deleteById: removes the row if there is one, and otherwise does nothing. */
    method DeleteById(id: int)
      requires Valid()
      modifies this
      ensures Valid()
      ensures receipts == old(receipts) - {id}
      ensures users == old(users)
    {
      receipts := receipts - {id};
    }
  }
}

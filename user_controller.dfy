/** The authentication REST controller: registration and login against the users table. */
module UserController {
  import opened Wrappers
  import opened ReceiptModel
  import opened Repository
  import opened ReceiptController

  /** Some stored user has exactly these credentials. */
  predicate HasCredentials(users: map<int, User>, username: string, password: string)
  {
    exists k :: k in users && users[k].username == username && users[k].password == password
  }

  class UserController {
    const db: Database

    ghost predicate Valid()
      reads this, db
    {
      db.Valid()
    }

    constructor(db: Database)
      requires db.Valid()
      ensures this.db == db && Valid()
    {
      this.db := db;
    }

    /**
     * POST /api/auth/register: a taken username gives 400 and changes
     * nothing; otherwise exactly one user is added and returned. Valid()
     * keeps usernames unique across any number of calls.
     */
    method Register(username: string, password: string) returns (resp: Response<User>)
      requires Valid()
      modifies db
      ensures Valid()
      ensures db.receipts == old(db.receipts)
      ensures IsTaken(old(db.users), username) ==>
                resp == Status(400, "Username already exists") && db.users == old(db.users)
      ensures !IsTaken(old(db.users), username) ==>
                && resp.Ok?
                && resp.body.username == username && resp.body.password == password
                && resp.body.id !in old(db.users)
                && db.users == old(db.users)[resp.body.id := resp.body]
    {
      if db.FindByUsername(username) != {} {
        return Status(400, "Username already exists");
      }
      var user := db.SaveUser(username, password);
      resp := Ok(user);
    }

    /**
     * POST /api/auth/login: the stored user when the username exists and its
     * password is equal to the given one, and 401 otherwise. It only reads.
     */
    method Login(username: string, password: string) returns (resp: Response<User>)
      requires Valid()
      ensures resp.Ok? <==> HasCredentials(db.users, username, password)
      ensures resp.Ok? ==>
                && resp.body.id in db.users && db.users[resp.body.id] == resp.body
                && resp.body.username == username && resp.body.password == password
      ensures resp.Status? ==> resp == Status(401, "Invalid credentials")
    {
      var found := db.FindByUsername(username);
      if found != {} {
        var user :| user in found;
        if user.password == password {
          return Ok(user);
        }
      }
      return Status(401, "Invalid credentials");
    }

    /** After a successful registration, logging in with the same credentials returns the new user. */
    method RegisterThenLogin(username: string, password: string) returns (registered: Response<User>, loggedIn: Response<User>)
      requires Valid()
      modifies db
      ensures Valid()
      ensures registered.Ok? ==> loggedIn == Ok(registered.body)
    {
      registered := Register(username, password);
      loggedIn := Login(username, password);
      if registered.Ok? {
        assert db.users[registered.body.id] == registered.body;
        assert loggedIn.body.id == registered.body.id;
      }
    }
  }
}

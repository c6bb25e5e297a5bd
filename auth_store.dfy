/**
 * The client's session store: the signed-in user, mirrored under the key
 * "user" in the browser's persistent storage.
 */
module AuthStore {
  import opened Wrappers

  /** The user object the server returns (only the fields the client reads). */
  datatype Account = Account(id: int, username: string)

  /**
   * The outcome of one fetch: a 2xx response with its parsed body, another
   * status with its text, or an exception raised while sending the request
   * or reading the body.
   */
  datatype HttpResult<T> = Ok(body: T) | NotOk(text: string) | NetworkError(message: string)

  /** The request a session operation sends. */
  datatype AuthRequest = PostLogin(username: string, password: string) | PostRegister(username: string, password: string)

  /** The storage key of the persisted user. */
  const UserKey: string := "user"

  /** The store's state: the user, and the persistent storage it writes to (parsed values). */
  datatype Session = Session(user: Option<Account>, storage: map<string, Account>)

  /** The value the persisted user decodes to, null when the key is missing. */
  function Persisted(storage: map<string, Account>): (u: Option<Account>)
    ensures u.Some? <==> UserKey in storage
    ensures u.Some? ==> u.value == storage[UserKey]
  {
    if UserKey in storage then Some(storage[UserKey]) else None
  }

  /** The in-memory user and the persisted one agree. */
  predicate Synced(s: Session)
  {
    s.user == Persisted(s.storage)
  }

  /** The session a page load starts from: the persisted user, or none. */
  function Restored(storage: map<string, Account>): (s: Session)
    ensures Synced(s) && s.storage == storage
  {
    Session(Persisted(storage), storage)
  }

  /**
   * A login or registration attempt: on a 2xx response the body becomes the
   * user and is persisted; on anything else nothing changes.
   */
  function SignedIn(s: Session, response: HttpResult<Account>): (r: Session)
    ensures response.Ok? ==> r.user == Some(response.body) && Synced(r)
    ensures response.Ok? ==> r.storage - {UserKey} == s.storage - {UserKey}
    ensures !response.Ok? ==> r == s
  {
    if response.Ok? then Session(Some(response.body), s.storage[UserKey := response.body]) else s
  }

  /** Logging out: no user and no persisted value, whatever the state before. */
  function SignedOut(s: Session): (r: Session)
    ensures r.user.None? && UserKey !in r.storage && Synced(r)
    ensures r.storage == s.storage - {UserKey}
  {
    Session(None, s.storage - {UserKey})
  }

  /** Logging out twice is logging out once. */
  lemma SignOutIdempotent(s: Session)
    ensures SignedOut(SignedOut(s)) == SignedOut(s)
  {
  }

  /** The session operations; login and registration share one contract. */
  datatype Action = SignIn(response: HttpResult<Account>) | SignOut

  function Step(s: Session, a: Action): Session
  {
    match a
    case SignIn(response) => SignedIn(s, response)
    case SignOut => SignedOut(s)
  }

  /** The session after the actions, in order. */
  function Run(s: Session, actions: seq<Action>): Session
    decreases |actions|
  {
    if actions == [] then s else Run(Step(s, actions[0]), actions[1..])
  }

  /** The action changes the session: a successful sign-in, or a sign-out. */
  predicate Effective(a: Action)
  {
    a.SignOut? || a.response.Ok?
  }

  /** The last action of the sequence that changes the session, if any. */
  function LastEffective(actions: seq<Action>): (r: Option<Action>)
    ensures r.None? <==> forall i :: 0 <= i < |actions| ==> !Effective(actions[i])
    ensures r.Some? ==> Effective(r.value)
    ensures r.Some? ==>
      exists i :: 0 <= i < |actions| && actions[i] == r.value && forall j :: i < j < |actions| ==> !Effective(actions[j])
  {
    if actions == [] then None
    else
      var later := LastEffective(actions[1..]);
      if later.Some? then
        var k :| 0 <= k < |actions[1..]| && actions[1..][k] == later.value
                 && forall j :: k < j < |actions[1..]| ==> !Effective(actions[1..][j]);
        assert actions[k + 1] == later.value;
        later
      else if Effective(actions[0]) then
        Some(actions[0])
      else
        None
  }

  /** Memory and storage stay in agreement through any sequence of logins, registrations and logouts. */
  lemma {:induction false} RunKeepsSynced(s: Session, actions: seq<Action>)
    requires Synced(s)
    ensures Synced(Run(s, actions))
    decreases |actions|
  {
    if actions != [] {
      RunKeepsSynced(Step(s, actions[0]), actions[1..]);
    }
  }

  /**
   * The user is the body of the most recent successful sign-in, unless a
   * logout came after it; with neither, the user is the one started with.
   */
  lemma {:induction false} RunUserIsLastEffective(s: Session, actions: seq<Action>)
    ensures Run(s, actions).user ==
              match LastEffective(actions)
              case None => s.user
              case Some(SignOut) => None
              case Some(SignIn(response)) => Some(response.body)
    decreases |actions|
  {
    if actions != [] {
      RunUserIsLastEffective(Step(s, actions[0]), actions[1..]);
    }
  }

  /** Failed sign-in attempts change nothing, in memory or in storage. */
  lemma {:induction false} FailedSignInsChangeNothing(s: Session, actions: seq<Action>)
    requires forall i :: 0 <= i < |actions| ==> actions[i].SignIn? && !actions[i].response.Ok?
    ensures Run(s, actions) == s
    decreases |actions|
  {
    if actions != [] {
      FailedSignInsChangeNothing(Step(s, actions[0]), actions[1..]);
    }
  }

  class AuthStore {
    var user: Option<Account>
    var storage: map<string, Account>

    function State(): Session
      reads this
    {
      Session(user, storage)
    }

    /** Store creation: the user is restored from storage. */
    constructor(stored: map<string, Account>)
      ensures State() == Restored(stored)
    {
      user := Persisted(stored);
      storage := stored;
    }

    /** login(username, password): true, and the response body signed in and persisted, exactly on a 2xx response. */
    method Login(username: string, password: string, response: HttpResult<Account>) returns (ok: bool, sent: AuthRequest)
      modifies this
      ensures sent == PostLogin(username, password)
      ensures ok == response.Ok?
      ensures State() == SignedIn(old(State()), response)
    {
      sent := PostLogin(username, password);
      ok := Accept(response);
    }

    /** register(username, password): the same contract as login, on the registration endpoint. */
    method Register(username: string, password: string, response: HttpResult<Account>) returns (ok: bool, sent: AuthRequest)
      modifies this
      ensures sent == PostRegister(username, password)
      ensures ok == response.Ok?
      ensures State() == SignedIn(old(State()), response)
    {
      sent := PostRegister(username, password);
      ok := Accept(response);
    }

    /** The shared tail of login and register: take the response body as the user and persist it. */
    method Accept(response: HttpResult<Account>) returns (ok: bool)
      modifies this
      ensures ok == response.Ok?
      ensures State() == SignedIn(old(State()), response)
    {
      if !response.Ok? {
        return false;
      }
      var data := response.body;
      user := Some(data);
      storage := storage[UserKey := data];
      ok := true;
    }

    /** logout(): forget the user in memory and in storage. */
    method Logout()
      modifies this
      ensures State() == SignedOut(old(State()))
    {
      user := None;
      storage := storage - {UserKey};
    }
  }
}

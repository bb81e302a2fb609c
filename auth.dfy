/** The account controller: register, log in and update a profile. The user
    collection is a map from id to account held by a store object, with at
    most one account per email (the collection's unique index). Password
    hashing, password comparison and token signing belong to the user model
    and are supplied to the store as opaque functions. */
module Auth {
  import opened Errors

  /** A stored account; `password` holds the hash, never the plaintext. */
  datatype Account = Account(name: string, email: string, password: string, lastName: string, location: string)

  /** A user document as a handler sends it: `password` is None when the
      document was loaded without it or it was cleared. */
  datatype UserDocument = UserDocument(
    id: UserId, name: string, email: string, password: Option<string>, lastName: string, location: string)

  /** The hand-built `user` object of the register reply: no id, no
      password. */
  datatype PublicUser = PublicUser(email: string, lastName: string, location: string, name: string)

  datatype RegisterBody = RegisterBody(name: Option<string>, email: Option<string>, password: Option<string>)
  datatype LoginBody = LoginBody(email: Option<string>, password: Option<string>)
  datatype ProfileBody = ProfileBody(email: Option<string>, name: Option<string>, lastName: Option<string>, location: Option<string>)

  datatype Registered = Registered(user: PublicUser, token: string)
  datatype SignedIn = SignedIn(user: UserDocument, token: string, location: string)

  /** The user model's own operations, which this model does not look into:
      the hash the save hook stores for a plaintext password, the check of a
      candidate password against a stored account, and the token signed for
      an account. */
  datatype Crypto = Crypto(
    hashPassword: string -> string,
    comparePassword: (string, Account) -> bool,
    createJWT: (UserId, Account) -> string)

  const FillAllFields := "Please fill out all fields"
  const EmailInUse := "Email already in use. Please choose another."
  const InvalidCredentials := "Invalid credentials"

  /** What `user.email = …` throws when the lookup found no user. */
  const NoUserError := Unexpected("TypeError", "Cannot set properties of null (setting 'email')")

  /** No email belongs to two accounts. */
  ghost predicate UniqueEmails(users: map<UserId, Account>)
  {
    forall a, b :: a in users && b in users && users[a].email == users[b].email ==> a == b
  }

  ghost predicate EmailTaken(users: map<UserId, Account>, email: string)
  {
    exists id :: id in users && users[id].email == email
  }

  /** `User.findOne({ email })` over the ids below `n`: the first account
      with that email, in ascending id order, or None when there is none. */
  function FindByEmail(users: map<UserId, Account>, email: string, n: nat): (r: Option<UserId>)
    ensures r.Some? ==> r.value < n && r.value in users && users[r.value].email == email
    ensures r.None? <==> forall id :: id < n && id in users ==> users[id].email != email
  {
    if n == 0 then None
    else
      match FindByEmail(users, email, n - 1)
      case Some(id) => Some(id)
      case None => if n - 1 in users && users[n - 1].email == email then Some(n - 1) else None
  }

  /** The document a handler sends for an account, without the password. */
  function Document(id: UserId, account: Account): (d: UserDocument)
    ensures d.password == None
    ensures d.id == id && d.email == account.email && d.name == account.name
    ensures d.lastName == account.lastName && d.location == account.location
  {
    UserDocument(id, account.name, account.email, None, account.lastName, account.location)
  }

  class UserStore {
    var users: map<UserId, Account>
    var nextId: UserId
    const crypto: Crypto
    /** The schema defaults of `lastName` and `location`. */
    const defaultLastName: string
    const defaultLocation: string

    ghost predicate Valid()
      reads this
    {
      && (forall id :: id in users ==> id < nextId)
      && UniqueEmails(users)
    }

    constructor (crypto: Crypto, defaultLastName: string, defaultLocation: string)
      ensures Valid() && users == map[] && nextId == 0
      ensures this.crypto == crypto
      ensures this.defaultLastName == defaultLastName && this.defaultLocation == defaultLocation
    {
      users := map[];
      nextId := 0;
      this.crypto := crypto;
      this.defaultLastName := defaultLastName;
      this.defaultLocation := defaultLocation;
    }

    /** `register`: all three fields are required and the email must be
        free; the new account stores the hash of the password, and the reply
        carries the public projection and a token. */
    method Register(body: RegisterBody) returns (r: Result<Registered>)
      requires Valid()
      modifies this
      ensures Valid()
      ensures !Present(body.name) || !Present(body.email) || !Present(body.password) ==>
                r == Failure(BadRequest(FillAllFields)) && users == old(users) && nextId == old(nextId)
      ensures Present(body.name) && Present(body.email) && Present(body.password)
              && EmailTaken(old(users), body.email.value) ==>
                r == Failure(BadRequest(EmailInUse)) && users == old(users) && nextId == old(nextId)
      ensures Present(body.name) && Present(body.email) && Present(body.password)
              && !EmailTaken(old(users), body.email.value) ==>
                var account := Account(body.name.value, body.email.value, crypto.hashPassword(body.password.value),
                                       defaultLastName, defaultLocation);
                && old(nextId) !in old(users)
                && users == old(users)[old(nextId) := account]
                && nextId == old(nextId) + 1
                && r == Success(Registered(PublicUser(account.email, account.lastName, account.location, account.name),
                                           crypto.createJWT(old(nextId), account)))
    {
      if !Present(body.name) || !Present(body.email) || !Present(body.password) {
        return Failure(BadRequest(FillAllFields));
      }
      var email := body.email.value;
      var existing := FindByEmail(users, email, nextId);
      if existing.Some? {
        return Failure(BadRequest(EmailInUse));
      }
      var account := Account(body.name.value, email, crypto.hashPassword(body.password.value),
                             defaultLastName, defaultLocation);
      var id := nextId;
      users := users[id := account];
      nextId := nextId + 1;
      var token := crypto.createJWT(id, account);
      r := Success(Registered(PublicUser(account.email, account.lastName, account.location, account.name), token));
    }

    /** `login`: an unknown email and a wrong password give the same error;
        on success the reply carries the account with its password cleared,
        and the store is left as it was. */
    method Login(body: LoginBody) returns (r: Result<SignedIn>)
      requires Valid()
      ensures !Present(body.email) || !Present(body.password) ==> r == Failure(BadRequest(ValuesMissing))
      ensures Present(body.email) && Present(body.password) ==>
                match r
                case Failure(e) =>
                  && e == UnAuthenticated(InvalidCredentials)
                  && forall id :: id in users && users[id].email == body.email.value ==>
                       !crypto.comparePassword(body.password.value, users[id])
                case Success(s) =>
                  && s.user.id in users
                  && var account := users[s.user.id];
                     && account.email == body.email.value
                     && crypto.comparePassword(body.password.value, account)
                     && s == SignedIn(Document(s.user.id, account), crypto.createJWT(s.user.id, account), account.location)
    {
      if !Present(body.email) || !Present(body.password) {
        return Failure(BadRequest(ValuesMissing));
      }
      var found := FindByEmail(users, body.email.value, nextId);
      if found.None? {
        return Failure(UnAuthenticated(InvalidCredentials));
      }
      var id := found.value;
      var account := users[id];
      // loaded with `select('+password')`
      var user := UserDocument(id, account.name, account.email, Some(account.password), account.lastName, account.location);
      var isPasswordCorrect := crypto.comparePassword(body.password.value, account);
      if !isPasswordCorrect {
        return Failure(UnAuthenticated(InvalidCredentials));
      }
      var token := crypto.createJWT(id, account);
      user := user.(password := None);
      r := Success(SignedIn(user, token, user.location));
    }

    /** `updateUser`: all four fields are required; the caller's email,
        name, lastName and location are overwritten and every other field,
        the password included, is kept. Saving an email that another account
        has violates the unique index. */
    method UpdateUser(userId: UserId, body: ProfileBody) returns (r: Result<SignedIn>)
      requires Valid()
      modifies this
      ensures Valid() && nextId == old(nextId)
      ensures !Present(body.email) || !Present(body.name) || !Present(body.lastName) || !Present(body.location) ==>
                r == Failure(BadRequest(ValuesMissing)) && users == old(users)
      ensures Present(body.email) && Present(body.name) && Present(body.lastName) && Present(body.location) ==>
                if userId !in old(users) then
                  r == Failure(NoUserError) && users == old(users)
                else if exists other :: other in old(users) && other != userId && old(users)[other].email == body.email.value then
                  r == Failure(DuplicateKey(["email"])) && users == old(users)
                else
                  var before := old(users)[userId];
                  var after := Account(body.name.value, body.email.value, before.password,
                                       body.lastName.value, body.location.value);
                  && users == old(users)[userId := after]
                  && r == Success(SignedIn(Document(userId, after), crypto.createJWT(userId, after), after.location))
    {
      if !Present(body.email) || !Present(body.name) || !Present(body.lastName) || !Present(body.location) {
        return Failure(BadRequest(ValuesMissing));
      }
      if userId !in users {
        return Failure(NoUserError);
      }
      var user := users[userId];
      user := user.(email := body.email.value);
      user := user.(name := body.name.value);
      user := user.(lastName := body.lastName.value);
      user := user.(location := body.location.value);
      var holder := FindByEmail(users, user.email, nextId);
      if holder.Some? && holder.value != userId {
        return Failure(DuplicateKey(["email"]));
      }
      users := users[userId := user];
      var token := crypto.createJWT(userId, user);
      r := Success(SignedIn(Document(userId, user), token, user.location));
    }
  }

  /** The user model is consistent with itself: a password is accepted for
      an account that stores that password's hash. */
  ghost predicate AcceptsOwnHash(c: Crypto)
  {
    forall pw: string, a: Account :: a.password == c.hashPassword(pw) ==> c.comparePassword(pw, a)
  }

  /** Registering and then logging in with the same credentials succeeds,
      for the new account, with a token issued for that account. */
  method RegisterThenLogin(store: UserStore, name: string, email: string, password: string)
    returns (registered: Result<Registered>, signedIn: Result<SignedIn>)
    requires store.Valid() && AcceptsOwnHash(store.crypto)
    requires name != "" && email != "" && password != ""
    requires !EmailTaken(store.users, email)
    modifies store
    ensures registered.Success? && signedIn.Success?
    ensures signedIn.value.user.id == old(store.nextId) && signedIn.value.user.email == email
    ensures signedIn.value.user.password == None
    ensures old(store.nextId) in store.users
    ensures signedIn.value.token == store.crypto.createJWT(old(store.nextId), store.users[old(store.nextId)])
  {
    var id := store.nextId;
    registered := store.Register(RegisterBody(Some(name), Some(email), Some(password)));
    var account := store.users[id];
    assert account.email == email;
    assert store.crypto.comparePassword(password, account);
    signedIn := store.Login(LoginBody(Some(email), Some(password)));
  }

  /** A second registration with the same email fails and leaves the first
      account as it was. */
  method RegisterTwice(store: UserStore, first: RegisterBody, second: RegisterBody)
    returns (r1: Result<Registered>, r2: Result<Registered>)
    requires store.Valid()
    requires Present(first.name) && Present(first.email) && Present(first.password)
    requires Present(second.name) && Present(second.password) && second.email == first.email
    requires !EmailTaken(store.users, first.email.value)
    modifies store
    ensures r1.Success? && r2 == Failure(BadRequest(EmailInUse))
    ensures store.users == old(store.users)[old(store.nextId) :=
              Account(first.name.value, first.email.value, store.crypto.hashPassword(first.password.value),
                      store.defaultLastName, store.defaultLocation)]
    ensures store.nextId == old(store.nextId) + 1
  {
    var id := store.nextId;
    r1 := store.Register(first);
    assert store.users[id].email == second.email.value;
    r2 := store.Register(second);
  }
}

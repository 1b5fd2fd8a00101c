/** The authentication routes: registration, login and the profile lookup over the user
    collection. Password hashing, password comparison and token signing are foreign calls:
    the hash and the comparison are parameters, and a token is the signed payload itself. */
module AuthRoutes {
  import opened Base

  const DefaultRole := "user"
  const FallbackSecret := "fallback-secret"
  const TokenLifetime := "7d"

  datatype User = User(id: UserId, fullName: string, email: string, passwordHash: string, role: string)

  /** The `user` object the register and login replies carry: no password hash. */
  datatype UserSummary = UserSummary(id: UserId, fullName: string, email: string, role: string)

  /** `jwt.sign({ userId }, key, { expiresIn })`, kept as its inputs. */
  datatype Token = Token(userId: UserId, key: string, expiresIn: string)

  datatype Body = Signed(token: Token, user: UserSummary) | Profile(record: User) | Message(text: string) | Unauthorized

  datatype Reply = Reply(code: nat, body: Body)

  const UserExists := Reply(400, Message("User already exists"))
  const InvalidCredentials := Reply(400, Message("Invalid credentials"))
  /** What the authentication middleware answers when it cannot resolve the caller. */
  const NotAuthorized := Reply(401, Unauthorized)

  /** `process.env.JWT_SECRET || 'fallback-secret'`: an unset or empty variable falls back. */
  function SigningKey(env: Option<string>): (key: string)
    ensures env.Some? && env.value != "" ==> key == env.value
    ensures env.None? || env.value == "" ==> key == FallbackSecret
    ensures key != ""
  {
    if env.Some? && env.value != "" then env.value else FallbackSecret
  }

  /** The token both routes issue: over the user's own id, valid for seven days. */
  function Issue(id: UserId, env: Option<string>): (t: Token)
    ensures t.userId == id && t.expiresIn == TokenLifetime && t.key == SigningKey(env)
  {
    Token(id, SigningKey(env), TokenLifetime)
  }

  function Summary(u: User): (s: UserSummary)
    ensures s.id == u.id && s.fullName == u.fullName && s.email == u.email && s.role == u.role
  {
    UserSummary(u.id, u.fullName, u.email, u.role)
  }

  /** The user collection, looked up by email as both routes do. */
  class UserStore {
    var users: map<string, User>
    var nextId: UserId

    /** Each user is filed under its own email and has an id below `nextId`; no two users
        share an id. */
    predicate Valid()
      reads this
    {
      && (forall e :: e in users ==> users[e].email == e && users[e].id < nextId)
      && (forall e1, e2 :: e1 in users && e2 in users && e1 != e2 ==> users[e1].id != users[e2].id)
    }

    constructor ()
      ensures Valid() && users == map[] && nextId == 0
    {
      users := map[];
      nextId := 0;
    }

    /** POST /register. A known email is refused with 400 and nothing is stored; otherwise
        exactly one user is added, its password stored only as `hash(password)`, and the reply
        is 201 with a token over the new id and the user's summary. */
    method Register(fullName: string, email: string, password: string,
                    hash: string -> string, env: Option<string>) returns (reply: Reply)
      requires Valid()
      modifies this
      ensures Valid()
      ensures email in old(users) ==>
        reply == UserExists && users == old(users) && nextId == old(nextId)
      ensures email !in old(users) ==>
        var u := User(old(nextId), fullName, email, hash(password), DefaultRole);
        && users == old(users)[email := u]
        && nextId == old(nextId) + 1
        && reply == Reply(201, Signed(Issue(u.id, env), Summary(u)))
    {
      if email in users {
        reply := UserExists;
        return;
      }
      var u := User(nextId, fullName, email, hash(password), DefaultRole);
      users := users[email := u];
      nextId := nextId + 1;
      reply := Reply(201, Signed(Issue(u.id, env), Summary(u)));
    }

    /** POST /login. An unknown email and a wrong password get the very same 400 reply;
        otherwise 200 with a token over the user's id. The route changes no user. */
    method Login(email: string, password: string,
                 passwordMatches: (string, string) -> bool, env: Option<string>) returns (reply: Reply)
      requires Valid()
      ensures reply.code == 200 || reply == InvalidCredentials
      ensures reply.code == 200 <==> email in users && passwordMatches(password, users[email].passwordHash)
      ensures reply.code == 200 ==>
        reply == Reply(200, Signed(Issue(users[email].id, env), Summary(users[email])))
    {
      if email !in users {
        return InvalidCredentials;
      }
      var user := users[email];
      if !passwordMatches(password, user.passwordHash) {
        return InvalidCredentials;
      }
      reply := Reply(200, Signed(Issue(user.id, env), Summary(user)));
    }

    /** GET /profile: the record of the user the middleware resolved from the token's id;
        401 when no user has that id. */
    method GetProfile(userId: UserId) returns (reply: Reply)
      requires Valid()
      ensures reply.code == 200 || reply == NotAuthorized
      ensures reply.code == 200 <==> exists e :: e in users && users[e].id == userId
      ensures reply.code == 200 ==>
        && reply.body.Profile? && reply.body.record.id == userId
        && reply.body.record.email in users && users[reply.body.record.email] == reply.body.record
    {
      if e :| e in users && users[e].id == userId {
        reply := Reply(200, Profile(users[e]));
      } else {
        reply := NotAuthorized;
      }
    }
  }
}

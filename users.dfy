/** The custom `User` model: roles, defaults, unique email, the role properties,
    and the identity store (the users table) with its lookups. */
module Users {
  import opened Outcomes

  type UserId = nat

  /** A confirmation code as stored in the `confirmation_code` column. */
  type Code = string

  /** `User.ROLE_CHOICES`: 'user', 'moderator', 'admin'. */
  datatype Role = UserRole | ModeratorRole | AdminRole

  /** `role` defaults to `User.USER`. */
  const DefaultRole: Role := UserRole

  /** `User.is_admin`. */
  function IsAdmin(role: Role): (admin: bool)
    ensures admin ==> !IsModerator(role)
  {
    role == AdminRole
  }

  /** `User.is_moderator`. */
  function IsModerator(role: Role): (moderator: bool)
    ensures moderator ==> role != AdminRole && role != DefaultRole
  {
    role == ModeratorRole
  }

  /** One row of the users table (the fields the core reads or writes). */
  datatype User = User(
    username: string,
    email: string,
    role: Role,
    isActive: bool,
    isSuperuser: bool,
    confirmationCode: Option<Code>)

  /** A row as the ORM creates it from a username and an email: every other
      field takes its default (role 'user', active, not a superuser, no code). */
  function NewUser(username: string, email: string): (u: User)
    ensures u.username == username && u.email == email
    ensures u.role == DefaultRole && u.isActive && !u.isSuperuser
    ensures u.confirmationCode == None
  {
    User(username, email, DefaultRole, true, false, None)
  }

  /** The message `send_confirmation_code` hands to the mail backend. */
  datatype Mail = Mail(recipient: string, code: Code)

  /** The outgoing mail channel of `send_confirmation_code`: what it has been
      asked to send so far. */
  class Outbox {
    ghost var sent: seq<Mail>

    constructor ()
      ensures sent == []
    {
      sent := [];
    }

    method Send(m: Mail)
      modifies this
      ensures sent == old(sent) + [m]
    {
      sent := sent + [m];
    }
  }

  /** The opaque access token `get_token` returns, bound to the user's identity. */
  datatype Token = AccessToken(user: UserId)

  function IssueToken(id: UserId): (t: Token)
    ensures t.user == id
  {
    AccessToken(id)
  }

  predicate UniqueUsernames(users: map<UserId, User>) {
    forall a, b :: a in users && b in users && users[a].username == users[b].username ==> a == b
  }

  /** `email = EmailField(unique=True)`. */
  predicate UniqueEmails(users: map<UserId, User>) {
    forall a, b :: a in users && b in users && users[a].email == users[b].email ==> a == b
  }

  /** Every stored user that has `username` also has `email`, and the other way
      round: the username and the email name the same account, or neither is
      taken. Inserting a user with that pair then keeps both unique. */
  predicate SameIdentity(users: map<UserId, User>, username: string, email: string) {
    forall id :: id in users ==> (users[id].username == username <==> users[id].email == email)
  }

  /** The identity store: the users table and the next primary key it hands out. */
  datatype Accounts = Accounts(users: map<UserId, User>, nextId: UserId) {
    predicate Valid() {
      && (forall id :: id in users ==> id < nextId)
      && UniqueUsernames(users)
      && UniqueEmails(users)
    }
  }

  /** Deleting a row keeps the identity store valid. */
  lemma RemoveKeepsValid(acc: Accounts, u: UserId)
    requires acc.Valid()
    ensures acc.(users := acc.users - {u}).Valid()
  {
  }

  /** `User.objects.get(username=name)`, with `DoesNotExist` as `None`. */
  function UserWithUsername(users: map<UserId, User>, name: string): (r: Option<UserId>)
    requires UniqueUsernames(users)
    ensures r.Some? ==> r.value in users && users[r.value].username == name
    ensures r.None? <==> forall id :: id in users ==> users[id].username != name
    ensures forall id :: id in users && users[id].username == name ==> r == Some(id)
  {
    if exists id :: id in users && users[id].username == name then
      var id :| id in users && users[id].username == name; Some(id)
    else
      None
  }

  /** `User.objects.get(email=email)`, with `DoesNotExist` as `None`. */
  function UserWithEmail(users: map<UserId, User>, email: string): (r: Option<UserId>)
    requires UniqueEmails(users)
    ensures r.Some? ==> r.value in users && users[r.value].email == email
    ensures r.None? <==> forall id :: id in users ==> users[id].email != email
    ensures forall id :: id in users && users[id].email == email ==> r == Some(id)
  {
    if exists id :: id in users && users[id].email == email then
      var id :| id in users && users[id].email == email; Some(id)
    else
      None
  }

  /** The `get` half of `User.objects.get_or_create(email=email, username=name)`. */
  function UserWithEmailAndUsername(users: map<UserId, User>, email: string, name: string): (r: Option<UserId>)
    requires UniqueEmails(users)
    ensures r.Some? ==> r.value in users && users[r.value].email == email && users[r.value].username == name
    ensures r.None? <==> forall id :: id in users ==> users[id].email != email || users[id].username != name
  {
    if exists id :: id in users && users[id].email == email && users[id].username == name then
      var id :| id in users && users[id].email == email && users[id].username == name; Some(id)
    else
      None
  }

  /** A role is one of three values, `is_admin` and `is_moderator` each test one
      of them, and no role makes both true. */
  lemma RolePredicates(role: Role)
    ensures IsAdmin(role) <==> role == AdminRole
    ensures IsModerator(role) <==> role == ModeratorRole
    ensures !(IsAdmin(role) && IsModerator(role))
    ensures role == UserRole || role == ModeratorRole || role == AdminRole
  {
  }

  /** A freshly created user is a plain user, neither admin nor moderator. */
  lemma NewUserHoldsNoPrivilege(username: string, email: string)
    ensures !IsAdmin(NewUser(username, email).role) && !IsModerator(NewUser(username, email).role)
  {
  }
}

/** The checks the API's serializers run on the write path, and the signup and
    token flow that walks a user from no record, to inactive with a code, to
    active with the code cleared. */
module Serializers {
  import opened Outcomes
  import opened Users
  import opened Requests
  import opened Reviews

  // ----- TitleWriteSerializer -------------------------------------------------

  /** `validate_year`, with the current year passed in. */
  function ValidateYear(value: int, currentYear: int): (r: Result<int>)
    ensures r.Ok? <==> value <= currentYear
    ensures r.Ok? ==> r.value == value
    ensures r.Err? ==> r.error == ValidationError(FutureYear)
  {
    if value > currentYear then Err(ValidationError(FutureYear)) else Ok(value)
  }

  // ----- ReviewSerializer ------------------------------------------------------

  /** The writable fields of a review. */
  datatype ReviewInput = ReviewInput(text: string, score: int)

  /** The model validators on `score`, which the serializer runs on the field
      before `validate`. */
  function ValidateScore(score: int): (r: Result<int>)
    ensures r.Ok? <==> 1 <= score <= 10
    ensures r.Ok? ==> r.value == score
    ensures r.Err? ==> r.error == ValidationError(ScoreOutOfRange)
  {
    if score < MinScore || score > MaxScore then Err(ValidationError(ScoreOutOfRange)) else Ok(score)
  }

  /** `ReviewSerializer.validate` for a request with method `m` by `author` on
      the title with key `titleId`. Only POST looks anything up. */
  function ValidateReview(
    m: Method, titles: map<TitleId, Title>, reviews: map<ReviewId, Review>,
    titleId: TitleId, author: UserId, data: ReviewInput): (r: Result<ReviewInput>)
    ensures r.Ok? ==> r.value == data
    ensures m != POST ==> r == Ok(data)
    ensures r == Err(NotFound) <==> m == POST && titleId !in titles
    ensures r == Err(ValidationError(DuplicateReview)) <==>
      m == POST && titleId in titles && exists id :: id in reviews && reviews[id].title == titleId && reviews[id].author == author
    ensures r.Err? ==> r.error == NotFound || r.error == ValidationError(DuplicateReview)
  {
    if m != POST then Ok(data)
    else if titleId !in titles then Err(NotFound)
    else if HasReviewed(reviews, titleId, author) then Err(ValidationError(DuplicateReview))
    else Ok(data)
  }

  /** The pre-check is exactly what the `unique_review` constraint needs: a
      review that passes it can be added without breaking the constraint. */
  lemma AcceptedReviewKeepsOnePerAuthor(
    titles: map<TitleId, Title>, reviews: map<ReviewId, Review>,
    titleId: TitleId, author: UserId, data: ReviewInput, id: ReviewId)
    requires OneReviewPerAuthor(reviews) && id !in reviews
    requires ValidateReview(POST, titles, reviews, titleId, author, data).Ok?
    ensures OneReviewPerAuthor(reviews[id := Review(titleId, author, data.text, data.score)])
  {  }

  /** A POST of a review: the score validators, then `validate`, then an
      INSERT of the review with that title and author. The review view is not
      part of this model; that it saves the review this way is an assumption.
      A second review of the same title by the same author is refused and
      leaves the store as it was. */
  method PostReview(db: Database, titleId: TitleId, author: UserId, data: ReviewInput)
    returns (r: Result<ReviewId>)
    requires db.Valid()
    requires author in db.accounts.users
    modifies db`reviews, db`nextReviewId
    ensures db.Valid()
    ensures r.Ok? <==> ScoreInRange(data.score) && titleId in old(db.titles)
                       && !HasReviewed(old(db.reviews), titleId, author)
    ensures r.Ok? ==> r.value !in old(db.reviews)
                      && db.reviews == old(db.reviews)[r.value := Review(titleId, author, data.text, data.score)]
    ensures r.Err? ==> db.reviews == old(db.reviews) && db.nextReviewId == old(db.nextReviewId)
    ensures r.Err? ==> r.error == (if !ScoreInRange(data.score) then ValidationError(ScoreOutOfRange)
                                   else if titleId !in old(db.titles) then NotFound
                                   else ValidationError(DuplicateReview))
  {
    var score := ValidateScore(data.score);
    if score.Err? {
      return Err(score.error);
    }
    var checked := ValidateReview(POST, db.titles, db.reviews, titleId, author, data);
    if checked.Err? {
      return Err(checked.error);
    }
    var id := db.InsertReview(Review(titleId, author, data.text, data.score));
    r := Ok(id);
  }

  // ----- SignupSerializer ------------------------------------------------------

  /** `max_length` of the `username` and `email` fields. */
  const UsernameMaxLength: nat := 150
  const EmailMaxLength: nat := 254

  /** The username `validate` refuses. */
  const ReservedName: string := "me"

  datatype SignupData = SignupData(username: string, email: string)

  /** `obj1 == obj2` in `validate`: the account found by username and the one
      found by email are the same, both absent counting as the same, exactly
      when no stored user holds one of the two values without the other. */
  lemma LookupsAgreeIffSameIdentity(users: map<UserId, User>, username: string, email: string)
    requires UniqueUsernames(users) && UniqueEmails(users)
    ensures UserWithUsername(users, username) == UserWithEmail(users, email) <==> SameIdentity(users, username, email)
  {  }

  /** The field checks and then `SignupSerializer.validate`. */
  function ValidateSignup(acc: Accounts, username: string, email: string): (r: Result<SignupData>)
    requires acc.Valid()
    ensures r.Ok? ==> r.value == SignupData(username, email)
    ensures r.Ok? <==> |username| <= UsernameMaxLength && |email| <= EmailMaxLength
                       && username != ReservedName && SameIdentity(acc.users, username, email)
    ensures |username| <= UsernameMaxLength && |email| <= EmailMaxLength && username == ReservedName
            ==> r == Err(ValidationError(ReservedUsername))
    ensures r.Err? ==> r.error.ValidationError?
  {
    if |username| > UsernameMaxLength || |email| > EmailMaxLength then
      Err(ValidationError(FieldTooLong))
    else if username == ReservedName then
      Err(ValidationError(ReservedUsername))
    else
      LookupsAgreeIffSameIdentity(acc.users, username, email);
      if UserWithUsername(acc.users, username) == UserWithEmail(acc.users, email) then
        Ok(SignupData(username, email))
      else
        Err(ValidationError(IdentityMismatch))
  }

  /** What `SignupSerializer.create` leaves behind: the store, the account it
      returns and whether `get_or_create` created it. */
  datatype Registration = Registration(accounts: Accounts, user: UserId, created: bool)

  /** The state `SignupSerializer.create` produces with the fresh code `code`:
      the account with this username and email is created when the username is
      unused, and is otherwise reused. Only a created account is made inactive;
      either way its code is replaced by `code`, and no other row changes. */
  function Register(acc: Accounts, data: SignupData, code: Code): (r: Registration)
    requires acc.Valid()
    requires SameIdentity(acc.users, data.username, data.email)
    ensures r.accounts.Valid()
    ensures r.accounts.users.Keys == acc.users.Keys + {r.user}
    ensures forall id :: id in acc.users && id != r.user ==> r.accounts.users[id] == acc.users[id]
    ensures r.created <==> r.user !in acc.users
    ensures r.created <==> forall id :: id in acc.users ==> acc.users[id].username != data.username
    ensures r.accounts.users[r.user].username == data.username && r.accounts.users[r.user].email == data.email
    ensures r.accounts.users[r.user].confirmationCode == Some(code)
    ensures r.created ==> r.accounts.users[r.user] == NewUser(data.username, data.email).(isActive := false, confirmationCode := Some(code))
    ensures !r.created ==> r.accounts.users[r.user] == acc.users[r.user].(confirmationCode := Some(code))
  {
    match UserWithEmailAndUsername(acc.users, data.email, data.username)
    case Some(id) =>
      Registration(acc.(users := acc.users[id := acc.users[id].(confirmationCode := Some(code))]), id, false)
    case None =>
      var id := acc.nextId;
      var user := NewUser(data.username, data.email).(isActive := false, confirmationCode := Some(code));
      Registration(Accounts(acc.users[id := user], id + 1), id, true)
  }

  /** `SignupSerializer.create`: get or create the account, make a created
      one inactive, set the fresh code, mail it, save. */
  method SignupCreate(db: Database, outbox: Outbox, data: SignupData, code: Code) returns (id: UserId)
    requires db.Valid()
    requires SameIdentity(db.accounts.users, data.username, data.email)
    modifies db`accounts, outbox
    ensures db.Valid()
    ensures db.accounts == Register(old(db.accounts), data, code).accounts
    ensures id == Register(old(db.accounts), data, code).user
    ensures outbox.sent == old(outbox.sent) + [Mail(data.email, code)]
  {
    var created;
    id, created := db.GetOrCreateUser(data.email, data.username);
    var user := db.accounts.users[id];
    if created {
      user := user.(isActive := false);
    }
    user := user.(confirmationCode := Some(code));
    outbox.Send(Mail(user.email, code));
    db.SaveUser(id, user);
  }

  // ----- TokenSerializer -------------------------------------------------------

  /** `validated_data` of the token request; `token` is filled in by `create`. */
  datatype TokenData = TokenData(username: string, confirmationCode: Code, token: Option<Token>)

  /** A successful redemption: the new store, the account and its token. */
  datatype Redemption = Redemption(accounts: Accounts, user: UserId, token: Token)

  /** The outcome of `TokenSerializer.create`: an unknown username is
      not-found, a code that differs from the stored one is refused, and a
      matching code activates the account and clears its code. */
  function Redeem(acc: Accounts, username: string, code: Code): (r: Result<Redemption>)
    requires acc.Valid()
    ensures r == Err(NotFound) <==> forall id :: id in acc.users ==> acc.users[id].username != username
    ensures r.Ok? <==> exists id :: id in acc.users && acc.users[id].username == username
                                    && acc.users[id].confirmationCode == Some(code)
    ensures r.Err? ==> r.error == NotFound || r.error == ValidationError(WrongCode)
    ensures r.Ok? ==> var x := r.value;
      && x.user in acc.users && acc.users[x.user].username == username
      && x.accounts.Valid()
      && x.accounts == acc.(users := acc.users[x.user := acc.users[x.user].(isActive := true, confirmationCode := None)])
      && x.token == IssueToken(x.user)
  {
    match UserWithUsername(acc.users, username)
    case None => Err(NotFound)
    case Some(id) =>
      if acc.users[id].confirmationCode != Some(code) then
        Err(ValidationError(WrongCode))
      else
        var user := acc.users[id].(isActive := true, confirmationCode := None);
        Ok(Redemption(acc.(users := acc.users[id := user]), id, IssueToken(id)))
  }

  /** `TokenSerializer`, holding its `validated_data`. */
  class TokenSerializer {
    var validatedData: TokenData

    constructor (username: string, confirmationCode: Code)
      ensures validatedData == TokenData(username, confirmationCode, None)
    {
      validatedData := TokenData(username, confirmationCode, None);
    }

    /** `create`: look the user up, compare codes, activate and clear the
        code, save, and write the token into `validated_data`. */
    method Create(db: Database) returns (r: Result<TokenData>)
      requires db.Valid()
      modifies this, db`accounts
      ensures db.Valid()
      ensures match Redeem(old(db.accounts), old(validatedData.username), old(validatedData.confirmationCode))
        case Ok(x) =>
          db.accounts == x.accounts && validatedData == old(validatedData).(token := Some(x.token))
          && r == Ok(validatedData)
        case Err(e) =>
          db.accounts == old(db.accounts) && validatedData == old(validatedData) && r == Err(e)
    {
      var found := UserWithUsername(db.accounts.users, validatedData.username);
      if found.None? {
        return Err(NotFound);
      }
      var id := found.value;
      var user := db.accounts.users[id];
      if user.confirmationCode != Some(validatedData.confirmationCode) {
        return Err(ValidationError(WrongCode));
      }
      user := user.(isActive := true);
      user := user.(confirmationCode := None);
      db.SaveUser(id, user);
      var token := IssueToken(id);
      validatedData := validatedData.(token := Some(token));
      r := Ok(validatedData);
    }
  }

  // ----- The account lifecycle -------------------------------------------------

  /** No record, then inactive with a code after signup, then active with the
      code cleared once it is redeemed. */
  lemma SignupThenTokenActivates(acc: Accounts, username: string, email: string, code: Code)
    requires acc.Valid() && ValidateSignup(acc, username, email).Ok?
    requires forall id :: id in acc.users ==> acc.users[id].username != username
    ensures var reg := Register(acc, SignupData(username, email), code);
      && reg.created
      && !reg.accounts.users[reg.user].isActive
      && Redeem(reg.accounts, username, code).Ok?
      && Redeem(reg.accounts, username, code).value.user == reg.user
      && Redeem(reg.accounts, username, code).value.accounts.users[reg.user].isActive
      && Redeem(reg.accounts, username, code).value.accounts.users[reg.user].confirmationCode == None
  {  }

  /** A redeemed code is spent: redeeming it again is refused. */
  lemma RedeemedCodeIsSpent(acc: Accounts, username: string, code: Code)
    requires acc.Valid() && Redeem(acc, username, code).Ok?
    ensures Redeem(Redeem(acc, username, code).value.accounts, username, code) == Err(ValidationError(WrongCode))
  {  }

  /** Signing up again with the same username and email passes validation,
      reuses the account without touching `is_active`, and replaces the code. */
  lemma SignupAgainReusesAccount(acc: Accounts, data: SignupData, code: Code, code': Code)
    requires acc.Valid() && ValidateSignup(acc, data.username, data.email).Ok?
    ensures var first := Register(acc, data, code);
      && ValidateSignup(first.accounts, data.username, data.email).Ok?
      && var second := Register(first.accounts, data, code');
      && !second.created
      && second.user == first.user
      && second.accounts.users == first.accounts.users[first.user := first.accounts.users[first.user].(confirmationCode := Some(code'))]
  {  }

  /** A request to one of the two authentication endpoints. */
  datatype AuthRequest =
    | SignupRequest(username: string, email: string, code: Code)
    | TokenRequest(username: string, code: Code)

  /** Signup and token requests keep every account they find, never change its
      username, email, role or superuser bit, and never deactivate it. */
  predicate Evolves(before: Accounts, after: Accounts) {
    forall id :: id in before.users ==>
      && id in after.users
      && after.users[id].username == before.users[id].username
      && after.users[id].email == before.users[id].email
      && after.users[id].role == before.users[id].role
      && after.users[id].isSuperuser == before.users[id].isSuperuser
      && (before.users[id].isActive ==> after.users[id].isActive)
  }

  /** Every inactive account is waiting for a code it has been sent. */
  predicate InactiveHoldCodes(acc: Accounts) {
    forall id :: id in acc.users && !acc.users[id].isActive ==> acc.users[id].confirmationCode.Some?
  }

  /** One request: a signup that validates is registered, a token request
      that redeems is applied, and a refused request changes nothing. */
  function Handle(acc: Accounts, req: AuthRequest): (r: Accounts)
    requires acc.Valid()
    ensures r.Valid()
    ensures Evolves(acc, r)
    ensures InactiveHoldCodes(acc) ==> InactiveHoldCodes(r)
  {
    match req
    case SignupRequest(username, email, code) =>
      (match ValidateSignup(acc, username, email)
       case Ok(data) => Register(acc, data, code).accounts
       case Err(_) => acc)
    case TokenRequest(username, code) =>
      (match Redeem(acc, username, code)
       case Ok(x) => x.accounts
       case Err(_) => acc)
  }

  /** A sequence of requests, served one after the other. */
  function HandleAll(acc: Accounts, reqs: seq<AuthRequest>): (r: Accounts)
    requires acc.Valid()
    ensures r.Valid()
    decreases |reqs|
  {
    if reqs == [] then acc else HandleAll(Handle(acc, reqs[0]), reqs[1..])
  }

  /** Over any sequence of requests, accounts are never lost, renamed,
      re-roled or deactivated, and an inactive account always holds a code. */
  lemma {:induction false} HandleAllEvolves(acc: Accounts, reqs: seq<AuthRequest>)
    requires acc.Valid()
    ensures Evolves(acc, HandleAll(acc, reqs))
    ensures InactiveHoldCodes(acc) ==> InactiveHoldCodes(HandleAll(acc, reqs))
    decreases |reqs|
  {
    if reqs != [] {
      var next := Handle(acc, reqs[0]);
      HandleAllEvolves(next, reqs[1..]);
    }
  }

  // ----- UserSerializer --------------------------------------------------------

  const RoleField: string := "role"

  /** The incoming field dictionary `validate` receives and may change. */
  class Payload {
    var fields: map<string, string>

    constructor (fields: map<string, string>)
      ensures this.fields == fields
    {
      this.fields := fields;
    }

    /** `dict.pop(key)` on a key that is present. */
    method Pop(key: string) returns (v: string)
      requires key in fields
      modifies this
      ensures v == old(fields)[key] && fields == old(fields) - {key}
    {
      v := fields[key];
      fields := fields - {key};
    }
  }

  /** The field dictionary `UserSerializer.validate` leaves: for any method but
      GET the `role` key is gone, and every other key keeps its value. */
  function WithoutRole(m: Method, fields: map<string, string>): (r: map<string, string>)
    ensures m == GET ==> r == fields
    ensures m != GET ==> RoleField !in r
    ensures forall k :: k != RoleField ==> (k in r <==> k in fields)
    ensures forall k :: k in r ==> k in fields && r[k] == fields[k]
  {
    if m != GET && RoleField in fields then fields - {RoleField} else fields
  }

  /** Running the role filter twice changes nothing more. */
  lemma WithoutRoleIdempotent(m: Method, fields: map<string, string>)
    ensures WithoutRole(m, WithoutRole(m, fields)) == WithoutRole(m, fields)
  {
  }

  /** `UserSerializer`, holding the `request_method` its constructor takes. */
  class UserSerializer {
    const requestMethod: Method

    /** `__init__`: `request_method` defaults to GET. */
    constructor (requestMethod: Option<Method>)
      ensures this.requestMethod == if requestMethod.Some? then requestMethod.value else GET
    {
      this.requestMethod := if requestMethod.Some? then requestMethod.value else GET;
    }

    /** `validate`: drops `role` from `data` in place unless the method is GET,
        and returns the same dictionary. */
    method Validate(data: Payload) returns (r: Payload)
      modifies data
      ensures r == data
      ensures data.fields == WithoutRole(requestMethod, old(data.fields))
    {
      if requestMethod != GET && RoleField in data.fields {
        var _ := data.Pop(RoleField);
      }
      r := data;
    }
  }
}

# YaMDb access control and review rules, in Dafny

A verified model of the rules at the centre of the YaMDb review backend (a
Django REST framework API where users review and rate titles, grouped by
category and genre, with moderator and administrator roles):

- **Permission classes** (`api_yamdb/api/v1/permissions.py`): `AuthorOrReadOnly`,
  `AdministratorOrReadOnly`, `IsAdministrator` and `IsModerator`, as predicates over an
  explicit HTTP `Method`, an `Actor` (anonymous, or an account id with a role and a superuser
  bit) and, at object level, the author of the target.
- **The user model** (`api_yamdb/users/models.py`): the three roles, the defaults of a new account,
  `is_admin` / `is_moderator`, and unique usernames and emails in the users table.
- **The content graph** (`api_yamdb/reviews/models.py`): genres, categories, titles, reviews and comments
  as tables (maps from primary key to row) in one `Database` object. `Valid()` holds the unique
  constraints, the score validators and referential integrity. The delete methods carry out
  `on_delete=CASCADE` and `SET_NULL` in place and keep `Valid()`.
- **The serializers' write path** (`api_yamdb/api/v1/serializers.py`):
  - `validate_year` and the POST-only duplicate-review check;
  - signup validation and `get_or_create`;
  - one-time redemption of the confirmation code;
  - dropping `role` from a user update.

  The signup and token flow moves an account from no record, to inactive with a code, to active
  with the code cleared. Pure functions specify each step (`Register`, `Redeem`). The imperative
  `create` methods update the row field by field, save it, and are proved equal to those functions.

Some behaviour is followed as the code has it:
- A wrong confirmation code raises a `ValidationError`, like the other serializer errors.
  There is no separate authentication error (`api_yamdb/api/v1/serializers.py:186-189`).
- `role` is dropped for every method other than GET, whoever the actor is
  (`api_yamdb/api/v1/serializers.py:219-220`).
- `AdministratorOrReadOnly` looks only at the admin role. `IsAdministrator` also accepts the
  superuser bit (`api_yamdb/api/v1/permissions.py:39` and `:54`). `SuperuserIsNotAdministratorOrReadOnly`
  proves the difference.
- The `unique_category` constraint on (name, category) does not bind titles whose category is
  null, as in SQL. So `SET_NULL` on a category delete can never break it.

The users table lives in `Reviews.Database` (field `accounts`), beside the content tables its
rows are referenced from; the lookups `get` and `get_or_create` work on it and are defined in
`Users`.

The current year, the fresh confirmation code and the mail channel are parameters. The access
token is an opaque value bound to the account id (`Users.IssueToken`).

## Model

| member | source | states |
|---|---|---|
| `Users.IsAdmin` | api_yamdb/users/models.py:63-66 | `is_admin`: the role is admin; an admin is never a moderator |
| `Users.IsModerator` | api_yamdb/users/models.py:68-71 | `is_moderator`: the role is moderator, which is neither admin nor the default role |
| `Users.UniqueEmails` | api_yamdb/users/models.py:24-27 | the `unique=True` email column: no two rows of the users table share an email |
| `Users.NewUser` | api_yamdb/users/models.py:32-43 | a new account gets the given username and email, role 'user', is active, is not a superuser, and has no confirmation code |
| `Users.RolePredicates` | api_yamdb/users/models.py:10-71 | a role is one of user, moderator, admin; `is_admin` holds exactly for admin and `is_moderator` exactly for moderator; the two never both hold |
| `Users.NewUserHoldsNoPrivilege` | api_yamdb/users/models.py:32-37 | a new account is neither admin nor moderator |
| `Users.UserWithUsername` | api_yamdb/api/v1/serializers.py:142-145 | `get(username=...)`: returns the account with that username, and `None` exactly when there is none |
| `Users.UserWithEmail` | api_yamdb/api/v1/serializers.py:146-149 | `get(email=...)`: returns the account with that email, and `None` exactly when there is none |
| `Users.UserWithEmailAndUsername` | api_yamdb/api/v1/serializers.py:157-160 | the lookup half of `get_or_create`: returns an account holding both values, and `None` exactly when there is none |
| `Users.IssueToken` | api_yamdb/users/models.py:59-61 | the token is bound to the account it was issued for |
| `Users.Outbox.Send` | api_yamdb/users/models.py:50-57 | `send_confirmation_code` appends exactly one message to what has been sent |
| `Requests.IsSafe` | api_yamdb/api/v1/permissions.py:17 | `SAFE_METHODS`: a method is safe exactly when it is none of POST, PUT, PATCH and DELETE |
| `Requests.Actor.Is` | api_yamdb/api/v1/permissions.py:24 | `obj.author == request.user`: holds only for an authenticated actor with that account id, never for the anonymous user |
| `Permissions.AuthorOrReadOnlyHasPermission` | api_yamdb/api/v1/permissions.py:15-19 | safe methods always pass; for the anonymous user exactly the safe methods pass |
| `Permissions.AuthorOrReadOnlyHasObjectPermission` | api_yamdb/api/v1/permissions.py:21-25 | safe methods always pass; whatever passes at object level also passes at request level |
| `Permissions.AdministratorOrReadOnlyHasPermission` | api_yamdb/api/v1/permissions.py:36-40 | safe methods always pass; every write it allows, `IsAdministrator` allows too |
| `Permissions.IsAdministratorHasPermission` | api_yamdb/api/v1/permissions.py:51-55 | only an authenticated actor passes, and every authenticated superuser passes whatever the role |
| `Permissions.IsAdministratorHasObjectPermission` | api_yamdb/api/v1/permissions.py:57-61 | the object-level check: an authenticated admin or superuser, whatever the object; `IsAdministratorExactly` proves it agrees with the request level |
| `Permissions.IsModeratorHasPermission` | api_yamdb/api/v1/permissions.py:70-74 | only an authenticated actor passes, and never one whose role is admin |
| `Permissions.IsModeratorHasObjectPermission` | api_yamdb/api/v1/permissions.py:76-80 | the object-level check: an authenticated moderator, whatever the object; `IsModeratorExactly` proves it agrees with the request level |
| `Permissions.SafeMethodPassesAuthorOrReadOnly` | api_yamdb/api/v1/permissions.py:15-25 | GET, HEAD and OPTIONS pass `AuthorOrReadOnly` at request and object level for every actor and object |
| `Permissions.UnsafeMethodNeedsAuthor` | api_yamdb/api/v1/permissions.py:15-25 | for any other method the request level holds exactly for an authenticated actor, and the object level exactly when the actor is the object's author |
| `Permissions.AuthorObjectLevelImpliesRequestLevel` | api_yamdb/api/v1/permissions.py:15-25 | passing the object-level check implies passing the request-level check |
| `Permissions.AnonymousOnlyReads` | api_yamdb/api/v1/permissions.py:15-40 | the anonymous user passes `AuthorOrReadOnly` (both levels) and `AdministratorOrReadOnly` exactly for the safe methods |
| `Permissions.AdministratorOrReadOnlyWrites` | api_yamdb/api/v1/permissions.py:36-40 | a method that is not safe is allowed exactly for an authenticated actor whose role is admin |
| `Permissions.SuperuserIsNotAdministratorOrReadOnly` | api_yamdb/api/v1/permissions.py:36-61 | a superuser with role 'user' passes `IsAdministrator` but fails `AdministratorOrReadOnly` for every method that is not safe |
| `Permissions.AdministratorOrReadOnlyWriteImpliesIsAdministrator` | api_yamdb/api/v1/permissions.py:36-61 | every write `AdministratorOrReadOnly` allows, `IsAdministrator` allows too |
| `Permissions.IsAdministratorExactly` | api_yamdb/api/v1/permissions.py:51-61 | allows exactly an authenticated admin or superuser; the answer does not depend on the method, and both levels agree |
| `Permissions.IsModeratorExactly` | api_yamdb/api/v1/permissions.py:70-80 | allows exactly an authenticated moderator; the answer does not depend on the method or the object, and both levels agree |
| `Permissions.AnonymousFailsRolePolicies` | api_yamdb/api/v1/permissions.py:51-80 | the anonymous user fails `IsAdministrator` and `IsModerator` at both levels for every method |
| `Reviews.UniqueGenreSlugs` | api_yamdb/reviews/models.py:11-15 | the `unique=True` genre slug: two genre rows with the same slug are the same row |
| `Reviews.UniqueCategorySlugs` | api_yamdb/reviews/models.py:31-35 | the `unique=True` category slug: two category rows with the same slug are the same row |
| `Reviews.UniqueTitlePerCategory` | api_yamdb/reviews/models.py:71-76 | `unique_category` on (name, category): two titles with the same name and the same non-null category are the same row; a null category binds nothing |
| `Reviews.OneReviewPerAuthor` | api_yamdb/reviews/models.py:114-119 | `unique_review` on (title, author): two reviews of the same title by the same author are the same row |
| `Reviews.ScoresInRange` | api_yamdb/reviews/models.py:96-102 | every stored score is between 1 and 10 |
| `Reviews.Database.Valid` | api_yamdb/reviews/models.py:6-143 | the store's invariant: the users table is valid (unique usernames and emails), the slug, `unique_category` and `unique_review` constraints and the score range hold, and every foreign key (category when not null, genres, title, review, author) names an existing row; primary keys stay below the next key handed out |
| `Reviews.Database.GetOrCreateUser` | api_yamdb/api/v1/serializers.py:157-160 | returns the existing account holding both values unchanged, or inserts a default account under the next key; the store stays valid (unique usernames and emails) |
| `Reviews.Database.SaveUser` | api_yamdb/api/v1/serializers.py:165 | replaces exactly one existing row and keeps the store valid |
| `Reviews.Database.InsertReview` | api_yamdb/reviews/models.py:96-119 | inserts exactly the given review under a fresh key; score range, one review per (title, author) and integrity still hold |
| `Reviews.Database.DeleteGenre` | api_yamdb/reviews/models.py:60-63 | the genre is gone, every title stays and loses only that genre, and nothing else changes |
| `Reviews.Database.DeleteCategory` | api_yamdb/reviews/models.py:55-59 | `SET_NULL`: the category is gone, titles in it get a null category, every title and every other row stays, and the store stays valid |
| `Reviews.Database.DeleteTitle` | api_yamdb/reviews/models.py:83-130 | the title, its reviews and their comments are gone, nothing else is; no comment is left without a review and no review without a title |
| `Reviews.Database.DeleteReview` | api_yamdb/reviews/models.py:126-130 | the review and exactly its comments are gone |
| `Reviews.Database.DeleteComment` | api_yamdb/reviews/models.py:125-143 | exactly the comment is gone |
| `Reviews.Database.DeleteUser` | api_yamdb/reviews/models.py:91-138 | the user, the user's reviews, the user's comments and every comment on the user's reviews are gone, nothing else is, and the store stays valid |
| `Serializers.ValidateYear` | api_yamdb/api/v1/serializers.py:65-71 | rejects exactly when the year is after the current year, and otherwise returns it unchanged |
| `Serializers.ValidateScore` | api_yamdb/reviews/models.py:96-102 | accepts exactly the scores 1 to 10 |
| `Serializers.ValidateReview` | api_yamdb/api/v1/serializers.py:88-98 | any method but POST returns the data unchanged; POST gives not-found exactly when the title is missing, and a duplicate-review error exactly when the author already reviewed it |
| `Serializers.AcceptedReviewKeepsOnePerAuthor` | api_yamdb/reviews/models.py:114-119 | a review that passes the POST check can be added without breaking the one-review-per-(title, author) constraint |
| `Serializers.PostReview` | api_yamdb/api/v1/serializers.py:88-98 | a POST succeeds exactly when the score is in range, the title exists and the author has not reviewed it; success adds exactly that review, refusal changes nothing, and the store stays valid |
| `Serializers.LookupsAgreeIffSameIdentity` | api_yamdb/api/v1/serializers.py:142-154 | the account found by username equals the one found by email, both absent included, exactly when no account holds one value without the other |
| `Serializers.ValidateSignup` | api_yamdb/api/v1/serializers.py:127-154 | accepts exactly when the lengths fit, the username is not "me", and username and email name the same account or none; "me" is refused with its own error |
| `Serializers.Register` | api_yamdb/api/v1/serializers.py:156-166 | an account is created exactly when the username is unused; only a created account is inactive; an existing account keeps every field but the code; the code is always the fresh one; no other row changes |
| `Serializers.SignupCreate` | api_yamdb/api/v1/serializers.py:156-166 | the step-by-step update, mail and save leave exactly the state `Register` describes, and mail the fresh code to the account's email |
| `Serializers.Redeem` | api_yamdb/api/v1/serializers.py:184-195 | not-found exactly when no account has the username; success exactly when its stored code equals the given one; success activates the account and clears its code, changes nothing else, and issues that account's token |
| `Serializers.TokenSerializer.Create` | api_yamdb/api/v1/serializers.py:184-195 | leaves the store and `validated_data` as `Redeem` says; on failure neither changes, and on success the token is written into `validated_data` |
| `Serializers.SignupThenTokenActivates` | api_yamdb/api/v1/serializers.py:156-195 | a signup for an unused username creates an inactive account, and redeeming its code then activates that account and clears the code |
| `Serializers.RedeemedCodeIsSpent` | api_yamdb/api/v1/serializers.py:184-195 | redeeming the same code a second time is refused |
| `Serializers.SignupAgainReusesAccount` | api_yamdb/api/v1/serializers.py:137-166 | repeating a signup with the same username and email passes validation, reuses the same account and changes only its code |
| `Serializers.Handle` | api_yamdb/api/v1/serializers.py:137-195 | one signup or token request keeps the identity store valid, never deactivates, renames, re-roles or removes an account, and leaves no inactive account without a code |
| `Serializers.HandleAll` | api_yamdb/api/v1/serializers.py:137-195 | any sequence of signup and token requests keeps the identity store valid |
| `Serializers.HandleAllEvolves` | api_yamdb/api/v1/serializers.py:156-195 | over any sequence of requests, accounts are never lost, renamed, re-roled or deactivated, and inactive accounts always hold a code |
| `Serializers.WithoutRole` | api_yamdb/api/v1/serializers.py:218-221 | with GET the fields are unchanged; otherwise `role` is absent; every other key is kept with its value |
| `Serializers.WithoutRoleIdempotent` | api_yamdb/api/v1/serializers.py:218-221 | applying the filter twice is the same as once |
| `Serializers.UserSerializer.constructor` | api_yamdb/api/v1/serializers.py:203-205 | `request_method` is the given method, GET when none is given |
| `Serializers.UserSerializer.Validate` | api_yamdb/api/v1/serializers.py:218-221 | removes `role` from the same dictionary in place as `WithoutRole` says, and returns that dictionary |
| `Serializers.Payload.Pop` | api_yamdb/api/v1/serializers.py:220 | removes exactly the key and returns its value |

## Left out

- Views and routing (`api_yamdb/api/v1/views.py` is not part of this model). Which permission classes each
  view combines is therefore not modelled. In particular, moderators editing other users'
  reviews depends on such a combination.
- The title `rating`: its computation is not in the modelled files. The read serializer only
  declares the field.
- Creation and update of genres, categories, titles and comments. Their serializers hold no
  hand-written check besides `validate_year`. The checks DRF generates for them are not
  modelled: the `UniqueValidator` and the slug-format check on the `unique=True` slug fields
  of genres and categories, and the `SlugRelatedField`s of the title write serializer that
  reject an unknown category or genre slug (`api_yamdb/api/v1/serializers.py:51-59`). Applying a validated user update (`ModelSerializer.update`) is
  not modelled either; only the `role` filter is.
- Field representation: `SlugRelatedField`, `CurrentUserDefault` and read-only or write-only
  flags. Also the `max_length` of names, slugs and `role`, `pub_date` timestamps
  and orderings.
- DRF field parsing: CharField whitespace trimming, rejection of blank values, and the
  email-format check. Also the `max_length` of `confirmation_code` in the token request.
  The username character pattern appears only in help text and is not enforced there.
- Delivery failure of the confirmation mail. `send_mail` raising after `get_or_create` has
  inserted the row is not modelled; `Outbox.Send` always accepts.
- Token signing and verification; `IssueToken` is an opaque value bound to the account id.
- Randomness of `uuid4()` and the clock. The fresh code and the current year are parameters.
- `role` is a `max_length=10` string column whose choices the database does not enforce. The model
  uses the three-valued `Role`.
- Reviews.Database.InsertReview: requires the `unique_review` constraint to hold instead of
  modelling the storage-level `IntegrityError`. The race between the serializer's pre-check and
  the insert is concurrency, which is out of scope.
- Reviews.Database.SaveUser: requires the username and email constraints to hold instead of
  modelling an `IntegrityError`. The modelled flows never change either value.
- Serializers.PostReview: takes the author as an account id. That the review view passes the
  authenticated request user, and that a permission check has turned the anonymous user away
  before the POST reaches the serializer, are assumptions about the view, which is not part of
  this model.

/** The four permission classes of the API. Each check is one boolean
    expression over the request method, the actor and (object level) the
    target's author. */
module Permissions {
  import opened Users
  import opened Requests

  /** `AuthorOrReadOnly.has_permission`. */
  function AuthorOrReadOnlyHasPermission(m: Method, actor: Actor): (allowed: bool)
    ensures IsSafe(m) ==> allowed
    ensures !actor.IsAuthenticated() ==> (allowed <==> IsSafe(m))
  {
    IsSafe(m) || actor.IsAuthenticated()
  }

  /** `AuthorOrReadOnly.has_object_permission` on an object written by `author`. */
  function AuthorOrReadOnlyHasObjectPermission(m: Method, actor: Actor, author: UserId): (allowed: bool)
    ensures IsSafe(m) ==> allowed
    ensures allowed ==> AuthorOrReadOnlyHasPermission(m, actor)
  {
    IsSafe(m) || actor.Is(author)
  }

  /** `AdministratorOrReadOnly.has_permission`: the role must be admin; the
      superuser bit is not consulted. */
  function AdministratorOrReadOnlyHasPermission(m: Method, actor: Actor): (allowed: bool)
    ensures IsSafe(m) ==> allowed
    ensures allowed && !IsSafe(m) ==> IsAdministratorHasPermission(m, actor)
  {
    IsSafe(m) || (actor.IsAuthenticated() && IsAdmin(actor.role))
  }

  /** `IsAdministrator.has_permission`: admin role or superuser. */
  function IsAdministratorHasPermission(m: Method, actor: Actor): (allowed: bool)
    ensures allowed ==> actor.IsAuthenticated()
    ensures actor.Authenticated? && actor.isSuperuser ==> allowed
  {
    actor.IsAuthenticated() && (IsAdmin(actor.role) || actor.isSuperuser)
  }

  /** `IsAdministrator.has_object_permission`; the object is not consulted. */
  predicate IsAdministratorHasObjectPermission<O>(m: Method, actor: Actor, obj: O) {
    actor.IsAuthenticated() && (IsAdmin(actor.role) || actor.isSuperuser)
  }

  /** `IsModerator.has_permission`. */
  function IsModeratorHasPermission(m: Method, actor: Actor): (allowed: bool)
    ensures allowed ==> actor.IsAuthenticated() && !IsAdmin(actor.role)
  {
    actor.IsAuthenticated() && IsModerator(actor.role)
  }

  /** `IsModerator.has_object_permission`; the object is not consulted. */
  predicate IsModeratorHasObjectPermission<O>(m: Method, actor: Actor, obj: O) {
    actor.IsAuthenticated() && IsModerator(actor.role)
  }

  /** A safe method passes AuthorOrReadOnly at both levels, whoever asks and
      whoever wrote the object. */
  lemma SafeMethodPassesAuthorOrReadOnly(m: Method, actor: Actor, author: UserId)
    requires IsSafe(m)
    ensures AuthorOrReadOnlyHasPermission(m, actor)
    ensures AuthorOrReadOnlyHasObjectPermission(m, actor, author)
  {
  }

  /** For a method that is not safe, AuthorOrReadOnly lets a request through
      exactly when it is authenticated, and an object exactly when the actor
      is its author. */
  lemma UnsafeMethodNeedsAuthor(m: Method, actor: Actor, author: UserId)
    requires !IsSafe(m)
    ensures AuthorOrReadOnlyHasPermission(m, actor) <==> actor.Authenticated?
    ensures AuthorOrReadOnlyHasObjectPermission(m, actor, author) <==> actor.Authenticated? && actor.id == author
  {
  }

  /** Whoever passes the object-level AuthorOrReadOnly check also passes the
      request-level one, so the two levels never contradict each other. */
  lemma AuthorObjectLevelImpliesRequestLevel(m: Method, actor: Actor, author: UserId)
    ensures AuthorOrReadOnlyHasObjectPermission(m, actor, author) ==> AuthorOrReadOnlyHasPermission(m, actor)
  {
  }

  /** AdministratorOrReadOnly allows a method that is not safe exactly for an
      authenticated admin. */
  lemma AdministratorOrReadOnlyWrites(m: Method, actor: Actor)
    requires !IsSafe(m)
    ensures AdministratorOrReadOnlyHasPermission(m, actor) <==> actor.Authenticated? && actor.role == AdminRole
  {
  }

  /** The superuser bit alone opens IsAdministrator but not the write side of
      AdministratorOrReadOnly: a superuser whose role is 'user' may manage
      accounts yet not titles, categories or genres. */
  lemma SuperuserIsNotAdministratorOrReadOnly(m: Method, id: UserId)
    requires !IsSafe(m)
    ensures IsAdministratorHasPermission(m, Authenticated(id, UserRole, true))
    ensures !AdministratorOrReadOnlyHasPermission(m, Authenticated(id, UserRole, true))
  {
  }

  /** Every write AdministratorOrReadOnly allows, IsAdministrator allows too. */
  lemma AdministratorOrReadOnlyWriteImpliesIsAdministrator(m: Method, actor: Actor)
    requires !IsSafe(m) && AdministratorOrReadOnlyHasPermission(m, actor)
    ensures IsAdministratorHasPermission(m, actor)
  {
  }

  /** IsAdministrator ignores the method and the object: it allows exactly an
      authenticated admin or superuser, and both levels agree. */
  lemma IsAdministratorExactly<O>(m: Method, m': Method, actor: Actor, obj: O)
    ensures IsAdministratorHasPermission(m, actor)
            <==> actor.Authenticated? && (actor.role == AdminRole || actor.isSuperuser)
    ensures IsAdministratorHasObjectPermission(m, actor, obj) == IsAdministratorHasPermission(m, actor)
    ensures IsAdministratorHasPermission(m, actor) == IsAdministratorHasPermission(m', actor)
  {
  }

  /** IsModerator ignores the method and the object: it allows exactly an
      authenticated moderator, and both levels agree. */
  lemma IsModeratorExactly<O>(m: Method, m': Method, actor: Actor, obj: O)
    ensures IsModeratorHasPermission(m, actor) <==> actor.Authenticated? && actor.role == ModeratorRole
    ensures IsModeratorHasObjectPermission(m, actor, obj) == IsModeratorHasPermission(m, actor)
    ensures IsModeratorHasPermission(m, actor) == IsModeratorHasPermission(m', actor)
  {
  }

  /** The anonymous user fails IsAdministrator and IsModerator at both levels,
      for every method and object. */
  lemma AnonymousFailsRolePolicies<O>(m: Method, obj: O)
    ensures !IsAdministratorHasPermission(m, Anonymous)
    ensures !IsAdministratorHasObjectPermission(m, Anonymous, obj)
    ensures !IsModeratorHasPermission(m, Anonymous)
    ensures !IsModeratorHasObjectPermission(m, Anonymous, obj)
  {
  }

  /** The two read-only classes let the anonymous user through exactly for
      the safe methods, at both levels. */
  lemma AnonymousOnlyReads(m: Method, author: UserId)
    ensures AuthorOrReadOnlyHasPermission(m, Anonymous) <==> IsSafe(m)
    ensures AuthorOrReadOnlyHasObjectPermission(m, Anonymous, author) <==> IsSafe(m)
    ensures AdministratorOrReadOnlyHasPermission(m, Anonymous) <==> IsSafe(m)
  {
  }
}

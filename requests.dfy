/** What a permission class sees of a request: its method and its user. */
module Requests {
  import opened Users

  /** The HTTP methods the API's views dispatch. */
  datatype Method = GET | HEAD | OPTIONS | POST | PUT | PATCH | DELETE

  /** Django REST framework's `SAFE_METHODS`: GET, HEAD and OPTIONS. */
  function IsSafe(m: Method): (safe: bool)
    ensures safe <==> !(m == POST || m == PUT || m == PATCH || m == DELETE)
  {
    m == GET || m == HEAD || m == OPTIONS
  }

  /** `request.user`: the anonymous user, or an authenticated account with its
      role and superuser bit. */
  datatype Actor = Anonymous | Authenticated(id: UserId, role: Role, isSuperuser: bool) {

    predicate IsAuthenticated() {
      Authenticated?
    }

    /** `obj.author == request.user`: model instances compare by primary key,
        and the anonymous user equals no stored user. */
    function Is(author: UserId): (same: bool)
      ensures same ==> IsAuthenticated()
      ensures Anonymous? ==> !same
    {
      Authenticated? && id == author
    }
  }
}

/**
 * The entities the server-list endpoint reads: servers with their category
 * name and member set, the rows of a queryset (a server, possibly annotated
 * with `num_members`), the request, and the three outcomes of `list`.
 */
module Servers {
  import opened Wrappers
  import opened PyInt

  type UserId = int

  /** A stored server: its primary key, its category's name and its members. */
  datatype Server = Server(id: int, categoryName: string, members: set<UserId>)

  /** One element of a queryset; `numMembers` is set once `annotate` has run. */
  datatype Row = Row(server: Server, numMembers: Option<nat>)

  /**
   * The five optional query parameters as `query_params.get` returns them,
   * and the two facts about `request.user` the view consults.
   */
  datatype Request = Request(
    category: Option<string>,
    qty: Option<string>,
    byUser: Option<string>,
    byServerId: Option<string>,
    withNumMembers: Option<string>,
    authenticated: bool,
    userId: UserId)

  /** The serialized rows, `AuthenticationFailed`, or `ValidationError(detail)`. */
  datatype Outcome = Ok(rows: seq<Row>) | AuthFailed | ValidationErr(message: string)

  /** Python truthiness of an optional string: present and non-empty. */
  predicate Truthy(p: Option<string>) {
    p.Some? && p.value != ""
  }

  /** `by_user` counts only as the literal string "true". */
  predicate ByUser(req: Request) {
    req.byUser == Some("true")
  }

  const ServerValueError: string := "Server value error"

  function NotFoundMessage(raw: string): string {
    "Server with id " + raw + " not found"
  }

  /** The view calls `int(qty)` and slices with it; only a non-negative integer is handled. */
  predicate QtyWellFormed(req: Request) {
    Truthy(req.qty) ==> ParseInt(req.qty.value).Some? && ParseInt(req.qty.value).value >= 0
  }

  function QtyLimit(req: Request): nat
    requires QtyWellFormed(req) && Truthy(req.qty)
  {
    ParseInt(req.qty.value).value
  }

  /** A row of `Server.objects.all()`: no annotation yet. */
  function Plain(s: Server): Row {
    Row(s, None)
  }

  function ServerOf(r: Row): Server {
    r.server
  }

  lemma NotFoundIsNotValueError(raw: string)
    ensures NotFoundMessage(raw) != ServerValueError
  {
    assert NotFoundMessage(raw)[7] == 'w';
  }
}

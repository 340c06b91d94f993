/**
 * The view object itself: `queryset` starts as `Server.objects.all()` and
 * `List` reassigns it stage by stage, raising (returning an error outcome)
 * as soon as a check fails.  Its contract ties the answer to `Pipeline`
 * and the field's final value to `QuerysetAtExit`.  The annotation step
 * attaches the intended member count (`ServerList.AnnotateStage`), not the
 * count the code as written reports after the membership filter.
 */
module ServerListViewSets {
  import opened Wrappers
  import opened PyInt
  import opened QuerySets
  import opened Servers
  import opened ServerList

  /** The value `self.queryset` holds when `list` returns or raises. */
  ghost function QuerysetAtExit(qs: seq<Row>, req: Request): seq<Row>
    requires QtyWellFormed(req)
  {
    var narrowed := Narrow(qs, req);
    if !narrowed.Ok? then CategoryStage(qs, req)
    else
      var annotated := AnnotateStage(narrowed.rows, req);
      if !Truthy(req.byServerId) then QtyStage(annotated, req)
      else if !req.authenticated then annotated
      else
        match ParseInt(req.byServerId.value)
        case None => annotated
        case Some(id) =>
          var found := Filter(annotated, HasId(id));
          if found == [] then found else QtyStage(found, req)
  }

  class ServerListViewSet {
    var queryset: seq<Row>

    constructor (storage: seq<Server>)
      ensures queryset == AllRows(storage)
    {
      queryset := AllRows(storage);
    }

    method List(req: Request) returns (outcome: Outcome)
      requires QtyWellFormed(req)
      modifies this
      ensures outcome == Pipeline(old(queryset), req)
      ensures queryset == QuerysetAtExit(old(queryset), req)
      ensures outcome.Ok? ==> queryset == outcome.rows
    {
      ghost var qs := queryset;
      if Truthy(req.category) {
        queryset := Filter(queryset, InCategory(req.category.value));
      }
      assert queryset == CategoryStage(qs, req);
      if ByUser(req) {
        if req.authenticated {
          queryset := Filter(queryset, HasMember(req.userId));
        } else {
          assert Narrow(qs, req) == AuthFailed;
          return AuthFailed;
        }
      }
      assert Narrow(qs, req) == Ok(queryset);
      if Truthy(req.withNumMembers) {
        queryset := Map(queryset, WithMemberCount);
      }
      ghost var annotated := queryset;
      assert annotated == AnnotateStage(Narrow(qs, req).rows, req);
      if Truthy(req.byServerId) {
        if !req.authenticated {
          assert IdStage(annotated, req) == AuthFailed;
          return AuthFailed;
        }
        var id := ParseInt(req.byServerId.value);
        if id.None? {
          assert IdStage(annotated, req) == ValidationErr(ServerValueError);
          return ValidationErr(ServerValueError);
        }
        queryset := Filter(queryset, HasId(id.value));
        if queryset == [] {
          assert IdStage(annotated, req) == ValidationErr(NotFoundMessage(req.byServerId.value));
          return ValidationErr(NotFoundMessage(req.byServerId.value));
        }
      }
      assert IdStage(annotated, req) == Ok(queryset);
      if Truthy(req.qty) {
        queryset := Take(queryset, QtyLimit(req));
      }
      outcome := Ok(queryset);
    }
  }

  /**
   * One request: the framework builds a fresh view object whose queryset is
   * the whole table and calls `list` on it.
   */
  method HandleRequest(storage: seq<Server>, req: Request) returns (outcome: Outcome)
    requires QtyWellFormed(req)
    ensures outcome == ListOutcome(storage, req)
  {
    var view := new ServerListViewSet(storage);
    outcome := view.List(req);
  }
}

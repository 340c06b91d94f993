/**
 * `ServerListViewSet.list` as a pipeline of stages over the queryset, in
 * the view's own order: category filter, membership filter (after an
 * authentication check), member-count annotation, id lookup (after an
 * authentication check, with a malformed-id and an existence check), and
 * the `qty` slice last.  Each stage states what it keeps and what it fails
 * with; `Pipeline` composes them.
 */
module ServerList {
  import opened Wrappers
  import opened PyInt
  import opened QuerySets
  import opened Servers

  /** The row predicates and the row map the stages hand to the queryset. */
  function InCategory(name: string): Row -> bool {
    (row: Row) => row.server.categoryName == name
  }

  function HasMember(user: UserId): Row -> bool {
    (row: Row) => user in row.server.members
  }

  function HasId(id: int): Row -> bool {
    (row: Row) => row.server.id == id
  }

  function WithMemberCount(row: Row): Row {
    Row(row.server, Some(MemberCount(row.server)))
  }

  /** `queryset.filter(category__name=category)` when `category` is non-empty. */
  function CategoryStage(qs: seq<Row>, req: Request): (r: seq<Row>)
  {
    if Truthy(req.category) then
      Filter(qs, InCategory(req.category.value))
    else qs
  }

  /**
   * `queryset.filter(member=user_id)` when `by_user` is "true"; an
   * unauthenticated caller gets `AuthenticationFailed` instead.
   */
  function MemberStage(qs: seq<Row>, req: Request): (o: Outcome)
  {
    if ByUser(req) then
      if req.authenticated then
        Ok(Filter(qs, HasMember(req.userId)))
      else AuthFailed
    else Ok(qs)
  }

  /** The number of distinct members `Count("member")` is meant to report. */
  function MemberCount(s: Server): nat {
    |s.members|
  }

  /**
   * `queryset.annotate(num_members=Count("member"))` when `with_num_members`
   * is non-empty, with the count the annotation is meant to give: the size of
   * each server's member set.  After the membership filter Django counts only
   * the caller; `MemberCountFinding.AnnotateStageAsWritten` is that version.
   */
  function AnnotateStage(qs: seq<Row>, req: Request): (r: seq<Row>)
  {
    if Truthy(req.withNumMembers) then
      Map(qs, WithMemberCount)
    else qs
  }

  /**
   * `queryset.filter(id=by_serverid)` when `by_serverid` is non-empty:
   * authentication first, then `ValueError` for an id `int` rejects, then
   * the existence check on what the earlier stages left.
   */
  function IdStage(qs: seq<Row>, req: Request): (o: Outcome)
  {
    if Truthy(req.byServerId) then
      if !req.authenticated then AuthFailed
      else
        match ParseInt(req.byServerId.value)
        case None => ValidationErr(ServerValueError)
        case Some(id) =>
          var found := Filter(qs, HasId(id));
          if found == [] then ValidationErr(NotFoundMessage(req.byServerId.value))
          else Ok(found)
    else Ok(qs)
  }

  /** `queryset[:int(qty)]` when `qty` is non-empty. */
  function QtyStage(qs: seq<Row>, req: Request): (r: seq<Row>)
    requires QtyWellFormed(req)
    ensures Truthy(req.qty) ==> r <= qs && |r| == if QtyLimit(req) < |qs| then QtyLimit(req) else |qs|
    ensures !Truthy(req.qty) ==> r == qs
  {
    if Truthy(req.qty) then Take(qs, QtyLimit(req)) else qs
  }

  /** The two stages before the annotation. */
  function Narrow(qs: seq<Row>, req: Request): Outcome {
    MemberStage(CategoryStage(qs, req), req)
  }

  /** The two stages after the annotation. */
  function Finish(qs: seq<Row>, req: Request): Outcome
    requires QtyWellFormed(req)
  {
    var o := IdStage(qs, req);
    if o.Ok? then Ok(QtyStage(o.rows, req)) else o
  }

  /** The whole of `list` as it is meant to behave, started from the queryset `qs`. */
  function Pipeline(qs: seq<Row>, req: Request): Outcome
    requires QtyWellFormed(req)
  {
    var o := Narrow(qs, req);
    if o.Ok? then Finish(AnnotateStage(o.rows, req), req) else o
  }

  /**
   * With a category, the stage keeps exactly the rows of that category, in
   * order; without one it keeps everything.
   */
  lemma CategoryStageFilters(qs: seq<Row>, req: Request)
    ensures Truthy(req.category) ==>
      forall row :: row in CategoryStage(qs, req) <==> row in qs && row.server.categoryName == req.category.value
    ensures Truthy(req.category) ==>
      forall row :: multiset(CategoryStage(qs, req))[row] ==
        if row.server.categoryName == req.category.value then multiset(qs)[row] else 0
    ensures !Truthy(req.category) ==> CategoryStage(qs, req) == qs
    ensures IsSubseq(CategoryStage(qs, req), qs)
  {
    if Truthy(req.category) {
      FilterKeepsExactly(qs, InCategory(req.category.value));
      FilterCounts(qs, InCategory(req.category.value));
      FilterIsSubseq(qs, InCategory(req.category.value));
    } else {
      SubseqRefl(qs);
    }
  }

  /**
   * With `by_user=true` an anonymous caller fails; a signed-in caller keeps
   * exactly the rows of servers it is a member of, in order.
   */
  lemma MemberStageFilters(qs: seq<Row>, req: Request)
    ensures ByUser(req) && !req.authenticated ==> MemberStage(qs, req) == AuthFailed
    ensures ByUser(req) && req.authenticated ==>
      MemberStage(qs, req).Ok? &&
      (forall row :: row in MemberStage(qs, req).rows <==> row in qs && req.userId in row.server.members) &&
      (forall row :: multiset(MemberStage(qs, req).rows)[row] ==
         if req.userId in row.server.members then multiset(qs)[row] else 0) &&
      IsSubseq(MemberStage(qs, req).rows, qs)
    ensures !ByUser(req) ==> MemberStage(qs, req) == Ok(qs)
  {
    if ByUser(req) && req.authenticated {
      FilterKeepsExactly(qs, HasMember(req.userId));
      FilterCounts(qs, HasMember(req.userId));
      FilterIsSubseq(qs, HasMember(req.userId));
    }
  }

  /** The annotation keeps every row's server and, when asked, attaches its member count. */
  lemma AnnotateStageCounts(qs: seq<Row>, req: Request)
    ensures |AnnotateStage(qs, req)| == |qs|
    ensures forall i :: 0 <= i < |qs| ==> AnnotateStage(qs, req)[i].server == qs[i].server
    ensures Truthy(req.withNumMembers) ==>
      forall i :: 0 <= i < |qs| ==> AnnotateStage(qs, req)[i].numMembers == Some(|qs[i].server.members|)
    ensures !Truthy(req.withNumMembers) ==> AnnotateStage(qs, req) == qs
  {
  }

  /**
   * The id lookup: authentication first, then "Server value error" for an
   * id `int` rejects, then "not found" exactly when no row has the id;
   * otherwise the rows with that id, in order.
   */
  lemma IdStageLooksUp(qs: seq<Row>, req: Request)
    ensures Truthy(req.byServerId) && !req.authenticated ==> IdStage(qs, req) == AuthFailed
    ensures Truthy(req.byServerId) && req.authenticated && ParseInt(req.byServerId.value).None? ==>
      IdStage(qs, req) == ValidationErr(ServerValueError)
    ensures Truthy(req.byServerId) && req.authenticated && ParseInt(req.byServerId.value).Some? ==>
      var id := ParseInt(req.byServerId.value).value;
      var o := IdStage(qs, req);
      (o == ValidationErr(NotFoundMessage(req.byServerId.value)) <==>
         forall i :: 0 <= i < |qs| ==> qs[i].server.id != id) &&
      (!o.Ok? <==> o == ValidationErr(NotFoundMessage(req.byServerId.value))) &&
      (o.Ok? ==>
         o.rows != [] && IsSubseq(o.rows, qs) &&
         forall row :: row in o.rows <==> row in qs && row.server.id == id)
    ensures !Truthy(req.byServerId) ==> IdStage(qs, req) == Ok(qs)
  {
    if Truthy(req.byServerId) && req.authenticated && ParseInt(req.byServerId.value).Some? {
      var id := ParseInt(req.byServerId.value).value;
      FilterKeepsExactly(qs, HasId(id));
      FilterIsSubseq(qs, HasId(id));
      FilterEmptyIff(qs, HasId(id));
    }
  }

  /** A successful id lookup keeps every occurrence of a row with that id, and nothing else. */
  lemma IdStageKeepsOccurrences(qs: seq<Row>, req: Request)
    requires Truthy(req.byServerId) && req.authenticated && ParseInt(req.byServerId.value).Some?
    requires IdStage(qs, req).Ok?
    ensures forall row :: multiset(IdStage(qs, req).rows)[row] ==
              if row.server.id == ParseInt(req.byServerId.value).value then multiset(qs)[row] else 0
  {
    FilterCounts(qs, HasId(ParseInt(req.byServerId.value).value));
  }

  /** `Server.objects.all()`: every stored server, unannotated, in storage order. */
  function AllRows(all: seq<Server>): (r: seq<Row>)
    ensures Map(r, ServerOf) == all
    ensures forall i :: 0 <= i < |r| ==> r[i].numMembers.None?
  {
    MapInverse(all, Plain, ServerOf);
    Map(all, Plain)
  }

  /**
   * What `list` is meant to answer when the table holds `all`; it differs
   * from the code as written, `MemberCountFinding.ListOutcomeAsWritten`,
   * only in the member counts (`MemberCountFinding.AsWrittenDiffersOnlyInCounts`).
   */
  function ListOutcome(all: seq<Server>, req: Request): Outcome
    requires QtyWellFormed(req)
  {
    Pipeline(AllRows(all), req)
  }
}

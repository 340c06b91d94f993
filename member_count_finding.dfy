/**
 * `list` filters on the many-to-many `member` relation (by_user) before it
 * annotates with `Count("member")`.  Django computes an annotation over the
 * query as it stands, so the count reuses the membership join the filter
 * restricted to the caller: each server then reports one member, the
 * caller.  This module models that count as the code is written and shows
 * where it departs from the per-server member count the rest of the model
 * (`ServerList.AnnotateStage`) uses.
 */
module MemberCountFinding {
  import opened Wrappers
  import opened PyInt
  import opened QuerySets
  import opened Servers
  import opened ServerList

  /** The members `Count("member")` sees: only the caller, once `filter(member=...)` has run. */
  function JoinedMemberCount(s: Server, req: Request): nat {
    if ByUser(req) then |s.members * {req.userId}| else |s.members|
  }

  function WithJoinedCount(req: Request): Row -> Row {
    (row: Row) => Row(row.server, Some(JoinedMemberCount(row.server, req)))
  }

  /** The annotation stage as written, with Django's join reuse. */
  function AnnotateStageAsWritten(qs: seq<Row>, req: Request): (r: seq<Row>)
    ensures |r| == |qs|
    ensures forall i :: 0 <= i < |r| ==> r[i].server == qs[i].server
    ensures Truthy(req.withNumMembers) && ByUser(req) ==>
      forall i :: 0 <= i < |r| ==> r[i].numMembers == Some(|qs[i].server.members * {req.userId}|)
  {
    if Truthy(req.withNumMembers) then Map(qs, WithJoinedCount(req)) else qs
  }

  function ListOutcomeAsWritten(all: seq<Server>, req: Request): Outcome
    requires QtyWellFormed(req)
  {
    var o := Narrow(AllRows(all), req);
    if o.Ok? then Finish(AnnotateStageAsWritten(o.rows, req), req) else o
  }

  /** The last two stages only pick rows they were given. */
  lemma FinishPicksRows(qs: seq<Row>, req: Request)
    requires QtyWellFormed(req) && Finish(qs, req).Ok?
    ensures forall i :: 0 <= i < |Finish(qs, req).rows| ==> Finish(qs, req).rows[i] in qs
  {
    var o := IdStage(qs, req);
    var rows := Finish(qs, req).rows;
    forall i | 0 <= i < |rows|
      ensures rows[i] in qs
    {
      assert rows[i] == o.rows[i];
      if Truthy(req.byServerId) {
        var found := Filter(qs, HasId(ParseInt(req.byServerId.value).value));
        FilterKeepsExactly(qs, HasId(ParseInt(req.byServerId.value).value));
        assert o.rows == found;
        assert found[i] in found;
      }
    }
  }

  /** As written, `by_user=true&with_num_members=true` reports one member for every server. */
  lemma AsWrittenCountsOnlyTheCaller(all: seq<Server>, req: Request)
    requires QtyWellFormed(req) && ByUser(req) && Truthy(req.withNumMembers)
    requires ListOutcomeAsWritten(all, req).Ok?
    ensures forall i :: 0 <= i < |ListOutcomeAsWritten(all, req).rows| ==>
      ListOutcomeAsWritten(all, req).rows[i].numMembers == Some(1)
  {
    var o := Narrow(AllRows(all), req);
    assert o.Ok? && o.rows == Filter(CategoryStage(AllRows(all), req), HasMember(req.userId));
    var annotated := AnnotateStageAsWritten(o.rows, req);
    CallerCountedOnce(o.rows, req);
    FinishPicksRows(annotated, req);
  }

  lemma CallerCountedOnce(narrowed: seq<Row>, req: Request)
    requires ByUser(req) && Truthy(req.withNumMembers)
    requires forall i :: 0 <= i < |narrowed| ==> req.userId in narrowed[i].server.members
    ensures forall i :: 0 <= i < |AnnotateStageAsWritten(narrowed, req)| ==>
      AnnotateStageAsWritten(narrowed, req)[i].numMembers == Some(1)
  {
    var annotated := AnnotateStageAsWritten(narrowed, req);
    forall i | 0 <= i < |annotated|
      ensures annotated[i].numMembers == Some(1)
    {
      var members := narrowed[i].server.members;
      assert members * {req.userId} == {req.userId};
    }
  }

  /**
   * Apart from the member counts, the code as written answers what the
   * model answers: the same error, or the same servers in the same order.
   */
  lemma AsWrittenDiffersOnlyInCounts(all: seq<Server>, req: Request)
    requires QtyWellFormed(req)
    ensures ListOutcomeAsWritten(all, req).Ok? <==> ListOutcome(all, req).Ok?
    ensures !ListOutcome(all, req).Ok? ==> ListOutcomeAsWritten(all, req) == ListOutcome(all, req)
    ensures ListOutcome(all, req).Ok? ==>
      Map(ListOutcomeAsWritten(all, req).rows, ServerOf) == Map(ListOutcome(all, req).rows, ServerOf)
  {
    var o := Narrow(AllRows(all), req);
    if o.Ok? {
      var written := AnnotateStageAsWritten(o.rows, req);
      var meant := AnnotateStage(o.rows, req);
      assert Map(written, ServerOf) == Map(meant, ServerOf);
      FinishSameServers(written, meant, req);
    }
  }

  /** The last two stages read only the servers of the rows they are given. */
  lemma FinishSameServers(a: seq<Row>, b: seq<Row>, req: Request)
    requires QtyWellFormed(req) && Map(a, ServerOf) == Map(b, ServerOf)
    ensures Finish(a, req).Ok? <==> Finish(b, req).Ok?
    ensures !Finish(a, req).Ok? ==> Finish(a, req) == Finish(b, req)
    ensures Finish(a, req).Ok? ==> Map(Finish(a, req).rows, ServerOf) == Map(Finish(b, req).rows, ServerOf)
  {
    var ia, ib := IdStage(a, req), IdStage(b, req);
    if Truthy(req.byServerId) && req.authenticated && ParseInt(req.byServerId.value).Some? {
      var id := ParseInt(req.byServerId.value).value;
      var q := (s: Server) => s.id == id;
      FilterMap(a, ServerOf, q, HasId(id));
      FilterMap(b, ServerOf, q, HasId(id));
      assert |Filter(a, HasId(id))| == |Filter(b, HasId(id))|;
    }
    assert ia.Ok? <==> ib.Ok?;
    if ia.Ok? {
      assert Map(ia.rows, ServerOf) == Map(ib.rows, ServerOf);
      if Truthy(req.qty) {
        MapTake(ia.rows, QtyLimit(req), ServerOf);
        MapTake(ib.rows, QtyLimit(req), ServerOf);
      }
    }
  }

  /** One server with two members, listed by one of them: the code says 1, the server has 2. */
  lemma AsWrittenMiscounts()
    ensures var all := [Server(1, "gaming", {7, 8})];
      var req := Request(None, None, Some("true"), None, Some("true"), true, 7);
      ListOutcomeAsWritten(all, req) == Ok([Row(all[0], Some(1))]) &&
      ListOutcome(all, req) == Ok([Row(all[0], Some(2))])
  {
    var all := [Server(1, "gaming", {7, 8})];
    var req := Request(None, None, Some("true"), None, Some("true"), true, 7);
    var plain := AllRows(all);
    assert plain == [Row(all[0], None)];
    assert Narrow(plain, req) == Ok(plain);
    assert {7, 8} * {7} == {7};
    assert |{7, 8}| == 2;
  }
}

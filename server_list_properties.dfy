/**
 * What `list` promises its callers, each stated over an arbitrary table of
 * servers and an arbitrary request.
 */
module ServerListProperties {
  import opened Wrappers
  import opened PyInt
  import opened QuerySets
  import opened Servers
  import opened ServerList
  import opened ServerListReference

  /** Primary keys are unique. */
  ghost predicate UniqueIds(all: seq<Server>) {
    forall i, j :: 0 <= i < j < |all| ==> all[i].id != all[j].id
  }

  /** With a category, every server answered belongs to it. */
  lemma CategoryFilterSound(all: seq<Server>, req: Request)
    requires QtyWellFormed(req) && Truthy(req.category) && ListOutcome(all, req).Ok?
    ensures forall i :: 0 <= i < |ListOutcome(all, req).rows| ==>
      ListOutcome(all, req).rows[i].server.categoryName == req.category.value
  {
    AnswerRows(all, req);
    var rows := ListOutcome(all, req).rows;
    var kept := Filter(all, Admits(req));
    forall i | 0 <= i < |rows|
      ensures rows[i].server.categoryName == req.category.value
    {
      assert rows[i] == Map(kept, Presented(req))[i];
      assert Admits(req)(kept[i]);
    }
  }

  /** `by_user=true` from an anonymous caller fails, whatever else the request says. */
  lemma ByUserNeedsAuthentication(all: seq<Server>, req: Request)
    requires QtyWellFormed(req) && ByUser(req) && !req.authenticated
    ensures ListOutcome(all, req) == AuthFailed
  {
  }

  /** `by_user=true` from a signed-in caller answers only servers the caller is a member of. */
  lemma ByUserAnswersOwnServers(all: seq<Server>, req: Request)
    requires QtyWellFormed(req) && ByUser(req) && ListOutcome(all, req).Ok?
    ensures forall i :: 0 <= i < |ListOutcome(all, req).rows| ==>
      req.userId in ListOutcome(all, req).rows[i].server.members
  {
    PipelineMatchesReference(all, req);
  }

  /** An id lookup from an anonymous caller fails. */
  lemma ServerIdNeedsAuthentication(all: seq<Server>, req: Request)
    requires QtyWellFormed(req) && Truthy(req.byServerId) && !req.authenticated
    ensures ListOutcome(all, req) == AuthFailed
  {
    PipelineMatchesReference(all, req);
  }

  /** An id `int` rejects is a "Server value error" for a signed-in caller. */
  lemma MalformedIdIsValueError(all: seq<Server>, req: Request)
    requires QtyWellFormed(req) && Truthy(req.byServerId) && req.authenticated
    requires ParseInt(req.byServerId.value).None?
    ensures ListOutcome(all, req) == ValidationErr(ServerValueError)
  {
    PipelineMatchesReference(all, req);
  }

  /**
   * A well-formed id is "not found" exactly when no stored server with that
   * id passes the category and membership filters: a server that exists but
   * was filtered out counts as missing.
   */
  lemma NotFoundIff(all: seq<Server>, req: Request, id: int)
    requires QtyWellFormed(req) && Truthy(req.byServerId) && req.authenticated
    requires ParseInt(req.byServerId.value) == Some(id)
    ensures ListOutcome(all, req) == ValidationErr(NotFoundMessage(req.byServerId.value)) <==>
      forall i :: 0 <= i < |all| && all[i].id == id ==>
        !(CategoryAdmits(req, all[i]) && MemberAdmits(req, all[i]))
  {
    PipelineMatchesReference(all, req);
    NotFoundIsNotValueError(req.byServerId.value);
    FilterEmptyIff(all, Admits(req));
    assert forall i :: 0 <= i < |all| ==>
      (Admits(req)(all[i]) <==> all[i].id == id && CategoryAdmits(req, all[i]) && MemberAdmits(req, all[i]));
  }

  /** Concretely: the one server with that id, in another category, is "not found". */
  lemma OtherCategoryIsNotFound(all: seq<Server>, req: Request, k: nat)
    requires QtyWellFormed(req) && Truthy(req.byServerId) && req.authenticated
    requires UniqueIds(all) && k < |all|
    requires ParseInt(req.byServerId.value) == Some(all[k].id)
    requires Truthy(req.category) && all[k].categoryName != req.category.value
    ensures ListOutcome(all, req) == ValidationErr(NotFoundMessage(req.byServerId.value))
  {
    NotFoundIff(all, req, all[k].id);
  }

  /** `qty=N` keeps the first N rows of what the request would answer without it. */
  lemma QtyTruncatesLast(all: seq<Server>, req: Request)
    requires QtyWellFormed(req) && Truthy(req.qty)
    ensures var full := ListOutcome(all, req.(qty := None));
      ListOutcome(all, req) == if full.Ok? then Ok(Take(full.rows, QtyLimit(req))) else full
  {
    PipelineMatchesReference(all, req);
    PipelineMatchesReference(all, req.(qty := None));
    ReferenceQtyIsPrefix(all, req);
  }

  /** Hence the answer under `qty=N` has at most N rows and is a prefix of the unlimited answer. */
  lemma QtyBoundsAnswer(all: seq<Server>, req: Request)
    requires QtyWellFormed(req) && Truthy(req.qty) && ListOutcome(all, req).Ok?
    ensures |ListOutcome(all, req).rows| <= QtyLimit(req)
    ensures ListOutcome(all, req.(qty := None)).Ok?
    ensures ListOutcome(all, req).rows <= ListOutcome(all, req.(qty := None)).rows
  {
    QtyTruncatesLast(all, req);
  }

  /** Every answer lists stored servers in storage order, each at most once. */
  lemma AnswerIsSubsequenceOfStorage(all: seq<Server>, req: Request)
    requires QtyWellFormed(req) && ListOutcome(all, req).Ok?
    ensures IsSubseq(Map(ListOutcome(all, req).rows, ServerOf), all)
  {
    PipelineMatchesReference(all, req);
    var kept := Filter(all, Admits(req));
    var shown := Map(kept, Presented(req));
    var rows := ListOutcome(all, req).rows;
    assert rows == QtyStage(shown, req);
    PrefixIsSubseq(rows, shown);
    MapKeepsSubseq(rows, shown, ServerOf);
    MapInverse(kept, Presented(req), ServerOf);
    FilterIsSubseq(all, Admits(req));
    SubseqTrans(Map(rows, ServerOf), kept, all);
  }

  /** `with_num_members` attaches each server's member count; without it nothing is attached. */
  lemma MemberCountsAreExact(all: seq<Server>, req: Request)
    requires QtyWellFormed(req) && ListOutcome(all, req).Ok?
    ensures var rows := ListOutcome(all, req).rows;
      forall i :: 0 <= i < |rows| ==>
        rows[i].numMembers == if Truthy(req.withNumMembers) then Some(|rows[i].server.members|) else None
  {
    PipelineMatchesReference(all, req);
  }

  /** A request carrying no parameter answers every stored server, unchanged and in order. */
  lemma NoParametersListsEverything(all: seq<Server>, req: Request)
    requires !Truthy(req.category) && !Truthy(req.qty) && !ByUser(req)
    requires !Truthy(req.byServerId) && !Truthy(req.withNumMembers)
    ensures ListOutcome(all, req) == Ok(AllRows(all))
  {
  }

  lemma {:induction false} FilterByIdAtMostOne(s: seq<Server>, p: Server -> bool, id: int)
    requires UniqueIds(s)
    requires forall x :: p(x) ==> x.id == id
    ensures |Filter(s, p)| <= 1
  {
    if s != [] {
      assert UniqueIds(s[1..]);
      FilterByIdAtMostOne(s[1..], p, id);
      if p(s[0]) {
        FilterEmptyIff(s[1..], p);
      }
    }
  }

  /** With unique primary keys, a successful id lookup answers that one server (at most one after `qty`). */
  lemma IdLookupFindsOne(all: seq<Server>, req: Request, id: int)
    requires QtyWellFormed(req) && UniqueIds(all) && Truthy(req.byServerId)
    requires ParseInt(req.byServerId.value) == Some(id) && ListOutcome(all, req).Ok?
    ensures |ListOutcome(all, req).rows| <= 1
    ensures !Truthy(req.qty) ==> |ListOutcome(all, req).rows| == 1
    ensures forall i :: 0 <= i < |ListOutcome(all, req).rows| ==> ListOutcome(all, req).rows[i].server.id == id
  {
    PipelineMatchesReference(all, req);
    FilterByIdAtMostOne(all, Admits(req), id);
  }
}

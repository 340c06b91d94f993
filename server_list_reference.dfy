/**
 * An independent, declarative description of what `list` answers: the
 * authentication and malformed-id errors first, then every stored server
 * that all active filters admit, presented with its member count when asked,
 * "not found" when an id was asked for and nothing is left, and the `qty`
 * prefix of the rest.  `PipelineMatchesReference` proves the staged
 * pipeline equal to it for every table and every request.
 */
module ServerListReference {
  import opened Wrappers
  import opened PyInt
  import opened QuerySets
  import opened Servers
  import opened ServerList

  /** The category filter as a condition on one server (vacuous when not asked for). */
  predicate CategoryAdmits(req: Request, s: Server) {
    Truthy(req.category) ==> s.categoryName == req.category.value
  }

  predicate MemberAdmits(req: Request, s: Server) {
    ByUser(req) ==> req.userId in s.members
  }

  predicate IdAdmits(req: Request, s: Server) {
    Truthy(req.byServerId) ==> ParseInt(req.byServerId.value) == Some(s.id)
  }

  function CategoryOk(req: Request): Server -> bool {
    (s: Server) => CategoryAdmits(req, s)
  }

  function MemberOk(req: Request): Server -> bool {
    (s: Server) => MemberAdmits(req, s)
  }

  function IdOk(req: Request): Server -> bool {
    (s: Server) => IdAdmits(req, s)
  }

  /** The filters that run before the annotation. */
  function NarrowOk(req: Request): Server -> bool {
    (s: Server) => CategoryAdmits(req, s) && MemberAdmits(req, s)
  }

  /** Every active filter at once. */
  function Admits(req: Request): Server -> bool {
    (s: Server) => CategoryAdmits(req, s) && MemberAdmits(req, s) && IdAdmits(req, s)
  }

  /** A stored server as the answer shows it. */
  function Presented(req: Request): Server -> Row {
    (s: Server) => Row(s, if Truthy(req.withNumMembers) then Some(|s.members|) else None)
  }

  /** Everything `list` answers except for the `qty` cap. */
  function Selection(all: seq<Server>, req: Request): Outcome {
    if (ByUser(req) || Truthy(req.byServerId)) && !req.authenticated then AuthFailed
    else if Truthy(req.byServerId) && ParseInt(req.byServerId.value).None? then
      ValidationErr(ServerValueError)
    else
      var kept := Filter(all, Admits(req));
      if Truthy(req.byServerId) && kept == [] then ValidationErr(NotFoundMessage(req.byServerId.value))
      else Ok(Map(kept, Presented(req)))
  }

  function Reference(all: seq<Server>, req: Request): Outcome
    requires QtyWellFormed(req)
  {
    var sel := Selection(all, req);
    if sel.Ok? then Ok(QtyStage(sel.rows, req)) else sel
  }

  /** After the category and membership stages: the admitted servers, unannotated. */
  lemma NarrowIsFilter(all: seq<Server>, req: Request)
    requires !(ByUser(req) && !req.authenticated)
    ensures Narrow(AllRows(all), req) == Ok(Map(Filter(all, NarrowOk(req)), Plain))
  {
    var rows := Map(all, Plain);
    var q1 := CategoryStage(rows, req);
    var cat := Filter(all, CategoryOk(req));
    if Truthy(req.category) {
      FilterMap(all, Plain, InCategory(req.category.value), CategoryOk(req));
    } else {
      FilterAll(all, CategoryOk(req));
    }
    assert q1 == Map(cat, Plain);
    if ByUser(req) {
      FilterMap(cat, Plain, HasMember(req.userId), MemberOk(req));
    } else {
      FilterAll(cat, MemberOk(req));
    }
    FilterFilter(all, CategoryOk(req), MemberOk(req), NarrowOk(req));
  }

  /** After the annotation: the admitted servers, each presented. */
  lemma AnnotateIsPresent(kept: seq<Server>, req: Request)
    ensures AnnotateStage(Map(kept, Plain), req) == Map(kept, Presented(req))
  {
    if Truthy(req.withNumMembers) {
      MapMap(kept, Plain, WithMemberCount, Presented(req));
    }
  }

  /** After the id lookup (when it is asked for and the id parses): the servers all filters admit. */
  lemma IdLookupIsFilter(all: seq<Server>, req: Request, id: int)
    requires Truthy(req.byServerId) && ParseInt(req.byServerId.value) == Some(id)
    ensures Filter(Map(Filter(all, NarrowOk(req)), Presented(req)), HasId(id))
         == Map(Filter(all, Admits(req)), Presented(req))
  {
    var narrowed := Filter(all, NarrowOk(req));
    FilterMap(narrowed, Presented(req), HasId(id), IdOk(req));
    FilterFilter(all, NarrowOk(req), IdOk(req), Admits(req));
  }

  /** Without an id lookup, the id condition admits everything. */
  lemma NoIdLookupKeepsNarrowed(all: seq<Server>, req: Request)
    requires !Truthy(req.byServerId)
    ensures Filter(all, Admits(req)) == Filter(all, NarrowOk(req))
  {
    FilterFilter(all, NarrowOk(req), IdOk(req), Admits(req));
    FilterAll(Filter(all, NarrowOk(req)), IdOk(req));
  }

  /** The staged pipeline of `list` and the declarative reference agree everywhere. */
  lemma PipelineMatchesReference(all: seq<Server>, req: Request)
    requires QtyWellFormed(req)
    ensures ListOutcome(all, req) == Reference(all, req)
  {
    if !(ByUser(req) && !req.authenticated) {
      NarrowIsFilter(all, req);
      var narrowed := Filter(all, NarrowOk(req));
      AnnotateIsPresent(narrowed, req);
      var annotated := Map(narrowed, Presented(req));
      assert AnnotateStage(Narrow(AllRows(all), req).rows, req) == annotated;
      if Truthy(req.byServerId) {
        if req.authenticated && ParseInt(req.byServerId.value).Some? {
          IdLookupIsFilter(all, req, ParseInt(req.byServerId.value).value);
        }
      } else {
        NoIdLookupKeepsNarrowed(all, req);
      }
    }
  }

  /** The rows of a successful answer, in reference terms. */
  lemma AnswerRows(all: seq<Server>, req: Request)
    requires QtyWellFormed(req) && ListOutcome(all, req).Ok?
    ensures Reference(all, req).Ok?
    ensures ListOutcome(all, req).rows == QtyStage(Map(Filter(all, Admits(req)), Presented(req)), req)
  {
    PipelineMatchesReference(all, req);
  }

  /** The selection does not read `qty`. */
  lemma SelectionIgnoresQty(all: seq<Server>, req: Request)
    ensures Selection(all, req.(qty := None)) == Selection(all, req)
  {
    var bare := req.(qty := None);
    FilterSame(all, Admits(req), Admits(bare));
    var kept := Filter(all, Admits(req));
    assert Map(kept, Presented(req)) == Map(kept, Presented(bare));
  }

  /** In reference terms, `qty` only takes a prefix of what the rest of the request selects. */
  lemma ReferenceQtyIsPrefix(all: seq<Server>, req: Request)
    requires QtyWellFormed(req) && Truthy(req.qty)
    ensures var full := Reference(all, req.(qty := None));
      Reference(all, req) == if full.Ok? then Ok(Take(full.rows, QtyLimit(req))) else full
  {
    SelectionIgnoresQty(all, req);
  }
}

# djchat server list, modelled in Dafny

This project models the server-list endpoint of djchat: `ServerListViewSet.list`
in `djchat/server/views.py`. The view starts from every stored server.
It narrows them stage by stage, in a fixed order, using five optional query
parameters:

1. `category`: keep the servers of that category.
2. `by_user=true`: the caller must be authenticated; keep the servers the
   caller is a member of.
3. `with_num_members`: annotate every server with `Count("member")`. The
   model attaches the count this is meant to give, the size of each
   server's member set. After the membership filter the code as written
   counts only the caller (see Findings).
4. `by_serverid`: the caller must be authenticated. An id that `int` rejects
   is a "Server value error". An id no remaining server has is "Server with
   id … not found". Otherwise keep that server.
5. `qty`: keep the first `int(qty)` rows.

The answer is the list of rows, `AuthenticationFailed`, or a
`ValidationError` with one of the two messages.

Files:

- `wrappers.dfy`: the `Option` type.
- `pyint.dfy`: Python's `int()` on a string. It strips the whitespace `int`
  strips (ASCII `\t\n\v\f\r` and space, and the non-ASCII characters
  `str.isspace` accepts, but not the ASCII separators U+001C to U+001F),
  accepts an optional sign, and accepts digits grouped by single underscores.
  It rejects a spelling of more than 4300 digits, the interpreter's default
  limit on integer string conversion.
  It is used for `qty` and for the `by_serverid` lookup. Django's integer
  primary key converts a lookup value with the same `int()`.
- `querysets.dfy`: the list semantics of the queryset operations. `filter` is
  `Filter`, `annotate` is `Map`, a slice `[:n]` is `Take`. It also defines the
  subsequence relation.
- `servers.dfy`: servers, rows, requests, outcomes, Python truthiness of the
  parameters, and the two error messages.
- `server_list.dfy`: one pure function per stage, and `Pipeline`, which
  composes them in the view's order.
- `server_list_viewset.dfy`: the view object. It is a class whose `queryset`
  field `List` reassigns stage by stage, returning early where the view
  raises. Its contract ties the answer to `Pipeline` and states the field's
  final value.
- `server_list_reference.dfy`: an independent, declarative description of the
  answer. It gives the errors, then every stored server all active filters
  admit, each presented with its count when asked. `PipelineMatchesReference`
  proves the staged pipeline equal to it.
- `server_list_properties.dfy`: what the endpoint promises its callers.
- `member_count_finding.dfy`: the member count as the code computes it (see
  Findings).

## Model

| member | source | states |
|---|---|---|
| PyInt.ParseIntOfDecimal | djchat/server/views.py:95 | `int(str(n)) == n` for every integer `n` of at most 4300 digits, and a longer spelling raises `ValueError`: the parser used for `qty` and ids reads back every decimal spelling within the limit |
| PyInt.ParseInt | djchat/server/views.py:86-95 | Python's `int()` on `qty` and on the `by_serverid` lookup value; `None` is the `ValueError`, raised also for more than 4300 digits. Its contract is stated by the round trip `ParseIntOfDecimal` and the lemmas below |
| PyInt.ParseIntOfDigitGroups | djchat/server/views.py:95 | an unsigned run of digit groups parses to the number its digits spell when it holds at most 4300 digits, and raises `ValueError` otherwise |
| PyInt.ParseIntOfSignedGroups | djchat/server/views.py:95 | a leading `+` keeps the value of the digit groups after it, and a leading `-` negates it; more than 4300 digits raise `ValueError` |
| PyInt.ParseIntIgnoresSurroundingSpace | djchat/server/views.py:95 | for every string, whitespace `int` strips (ASCII `\t\n\v\f\r` and space, non-ASCII `str.isspace` characters) added before and after it does not change what `int` makes of it |
| PyInt.ParseIntNeedsADigit | djchat/server/views.py:85-91 | a string without a decimal digit always raises `ValueError` (`None`) |
| PyInt.AcceptedSpellings | djchat/server/views.py:95 | `" 42\n"` is 42, `"+7"` is 7 and `"1_0"` is 10 |
| PyInt.RejectedSpellings | djchat/server/views.py:85-91 | a doubled, leading or trailing underscore, a lone sign, blanks and the empty string are all rejected |
| PyInt.SeparatorsNotStripped | djchat/server/views.py:85-95 | `int` does not strip U+001C or U+001F, which `str.isspace` accepts: `"\x1c5"` and `"5\x1f"` raise `ValueError` |
| PyInt.LongDigitRunsRejected | djchat/server/views.py:85-95 | a run of more than 4300 digits raises `ValueError` |
| PyInt.DigitsValueOfNatDecimal | djchat/server/views.py:95 | the digits of the decimal spelling of `n` spell `n` |
| PyInt.AllDigitsAreGroups | djchat/server/views.py:95 | a non-empty run of plain digits is well-formed digit groups |
| PyInt.NatDecimalDigits | djchat/server/views.py:95 | the decimal spelling of a natural number is a non-empty run of digits |
| PyInt.GroupsEndInDigit | djchat/server/views.py:95 | well-formed digit groups end in a digit, never in an underscore |
| PyInt.StripPadded | djchat/server/views.py:95 | padding any string with whitespace on both sides leaves its stripped form unchanged |
| PyInt.TrimLeftSkipsSpace | djchat/server/views.py:95 | stripping on the left drops leading whitespace whatever follows it |
| PyInt.TrimRightSkipsSpace | djchat/server/views.py:95 | stripping on the right drops trailing whitespace whatever precedes it |
| QuerySets.Filter | djchat/server/views.py:66 | `filter` keeps no more rows than it was given, and every row it keeps satisfies the predicate |
| QuerySets.FilterKeepsExactly | djchat/server/views.py:66 | a row is in the filtered queryset if and only if it was in the queryset and the predicate admits it |
| QuerySets.FilterCounts | djchat/server/views.py:66 | every occurrence of an admitted row is kept and no other row occurs: the filtered multiset is the admitted part of the original |
| QuerySets.FilterIsSubseq | djchat/server/views.py:66 | filtering keeps the surviving rows in their original order |
| QuerySets.FilterFilter | djchat/server/views.py:66-72 | two successive filters equal one filter by their conjunction |
| QuerySets.FilterMap | djchat/server/views.py:78-86 | filtering after an annotation equals annotating after the corresponding filter |
| QuerySets.FilterEmptyIff | djchat/server/views.py:88 | a filter leaves nothing if and only if no row satisfies it |
| QuerySets.Map | djchat/server/views.py:78 | `annotate` keeps the length and transforms row `i` into `f` of row `i` |
| QuerySets.Take | djchat/server/views.py:95 | `[:n]` is a prefix of length `min(n, len)` |
| QuerySets.MapTake | djchat/server/views.py:78-95 | slicing after an annotation keeps the servers slicing before it keeps |
| QuerySets.SubseqTrans | djchat/server/views.py:66-95 | "kept in order" composes across stages |
| QuerySets.MapKeepsSubseq | djchat/server/views.py:78 | annotating preserves "kept in order" |
| Servers.Truthy | djchat/server/views.py:65-94 | Python truthiness of `category`, `by_serverid`, `with_num_members` and `qty`: present and non-empty. It has no contract of its own; the stage lemmas below state its effect |
| Servers.ByUser | djchat/server/views.py:60 | `by_user` is on only for the literal string "true". It has no contract of its own; `MemberStageFilters` states its effect |
| ServerList.CategoryStage | djchat/server/views.py:65-66 | the category filter; its contract is stated by `CategoryStageFilters` |
| ServerList.CategoryStageFilters | djchat/server/views.py:65-66 | with a non-empty `category`, a row survives if and only if it is in the queryset and has that category name, each such row as often as it occurs, in order; without one, the queryset is unchanged |
| ServerList.MemberStage | djchat/server/views.py:69-74 | the membership filter and its authentication check; its contract is stated by `MemberStageFilters` |
| ServerList.MemberStageFilters | djchat/server/views.py:69-74 | `by_user=true` from an anonymous caller fails; from a signed-in caller a row survives if and only if the caller is among its members, each such row as often as it occurs, in order; otherwise nothing changes |
| ServerList.AnnotateStage | djchat/server/views.py:77-78 | the annotation with the intended count (the corrected half of the finding); its contract is stated by `AnnotateStageCounts` |
| ServerList.AnnotateStageCounts | djchat/server/views.py:77-78 | the annotation keeps every row's server and, when asked for, attaches the size of its member set; otherwise nothing changes |
| ServerList.IdStage | djchat/server/views.py:81-91 | the id lookup with its three checks; its contract is stated by `IdStageLooksUp` and `IdStageKeepsOccurrences` |
| ServerList.IdStageLooksUp | djchat/server/views.py:81-91 | an id lookup from an anonymous caller fails; an id `int` rejects is "Server value error"; "not found" holds exactly when no row has the id; otherwise the survivors are exactly the rows with that id, in order |
| ServerList.IdStageKeepsOccurrences | djchat/server/views.py:86 | a successful id lookup keeps every occurrence of a row with that id, and no other row |
| ServerList.QtyStage | djchat/server/views.py:94-95 | with a non-empty `qty` the result is the prefix of length `min(int(qty), len)`; otherwise the queryset is unchanged |
| ServerList.Pipeline | djchat/server/views.py:57-98 | the stages composed in the view's order, with the intended member count; proved equal to the reference by `PipelineMatchesReference` |
| ServerList.ListOutcome | djchat/server/views.py:16-98 | what `list` is meant to answer for a table of servers; `PipelineMatchesReference` and the properties below state its contract |
| ServerList.AllRows | djchat/server/views.py:16 | `Server.objects.all()` holds every stored server, in storage order, unannotated |
| ServerListViewSets.ServerListViewSet.constructor | djchat/server/views.py:16 | a fresh view object's queryset is every stored server |
| ServerListViewSets.ServerListViewSet.List | djchat/server/views.py:57-98 | reassigning `self.queryset` stage by stage, with the early raises, answers exactly `Pipeline` of the old queryset; on success the field holds the answer |
| ServerListViewSets.HandleRequest | djchat/server/views.py:16-19 | a request on a fresh view object answers `ListOutcome` of the stored servers |
| ServerListReference.PipelineMatchesReference | djchat/server/views.py:57-98 | the staged pipeline equals the declarative reference for every table and every request |
| ServerListReference.NarrowIsFilter | djchat/server/views.py:65-74 | after the first two stages the queryset is the stored servers both filters admit |
| ServerListReference.AnnotateIsPresent | djchat/server/views.py:77-78 | after the annotation every admitted server is shown as the answer presents it |
| ServerListReference.IdLookupIsFilter | djchat/server/views.py:86 | the id lookup after the first stages equals filtering the stored servers by all three conditions |
| ServerListReference.NoIdLookupKeepsNarrowed | djchat/server/views.py:81 | without `by_serverid` the id condition admits everything |
| ServerListReference.AnswerRows | djchat/server/views.py:57-98 | the rows of a successful answer are the `qty` prefix of the admitted servers, as presented |
| ServerListReference.SelectionIgnoresQty | djchat/server/views.py:94-95 | nothing before the last stage reads `qty` |
| ServerListReference.ReferenceQtyIsPrefix | djchat/server/views.py:94-95 | in reference terms, `qty` only takes a prefix of what the rest of the request selects |
| ServerListProperties.CategoryFilterSound | djchat/server/views.py:65-66 | with a category, every server answered belongs to that category |
| ServerListProperties.ByUserNeedsAuthentication | djchat/server/views.py:69-74 | `by_user=true` from an anonymous caller is `AuthenticationFailed`, whatever `by_serverid` and `qty` say |
| ServerListProperties.ByUserAnswersOwnServers | djchat/server/views.py:70-72 | `by_user=true` from a signed-in caller answers only servers the caller is a member of |
| ServerListProperties.ServerIdNeedsAuthentication | djchat/server/views.py:81-83 | an id lookup from an anonymous caller is `AuthenticationFailed` |
| ServerListProperties.MalformedIdIsValueError | djchat/server/views.py:85-91 | for a signed-in caller, an id `int` rejects is "Server value error" |
| ServerListProperties.NotFoundIff | djchat/server/views.py:86-89 | a well-formed id is "not found" if and only if no stored server with that id passes the category and membership filters |
| ServerListProperties.OtherCategoryIsNotFound | djchat/server/views.py:86-89 | a server that exists but lies in another category than the one asked for is "not found" |
| ServerListProperties.QtyTruncatesLast | djchat/server/views.py:94-95 | the answer under `qty=N` is the first N rows of the answer without `qty`, and the errors are the same |
| ServerListProperties.QtyBoundsAnswer | djchat/server/views.py:94-95 | the answer under `qty=N` has at most N rows and is a prefix of the answer without `qty` |
| ServerListProperties.AnswerIsSubsequenceOfStorage | djchat/server/views.py:16-95 | every answer lists stored servers in storage order |
| ServerListProperties.MemberCountsAreExact | djchat/server/views.py:77-98 | with `with_num_members`, every row reports the size of its server's member set; without it no row carries a count |
| ServerListProperties.NoParametersListsEverything | djchat/server/views.py:16-98 | a request without parameters answers every stored server, unchanged and in order |
| ServerListProperties.FilterByIdAtMostOne | djchat/server/views.py:86 | with unique primary keys a filter by one id keeps at most one server |
| ServerListProperties.IdLookupFindsOne | djchat/server/views.py:86-89 | with unique primary keys a successful id lookup answers that one server (at most one under `qty`) |
| Servers.NotFoundIsNotValueError | djchat/server/views.py:89-91 | the two validation messages are distinct |
| MemberCountFinding.ListOutcomeAsWritten | djchat/server/views.py:57-98 | `list` as the code is written, with the join-restricted count; `AsWrittenCountsOnlyTheCaller` and `AsWrittenMiscounts` state what it answers |
| MemberCountFinding.AnnotateStageAsWritten | djchat/server/views.py:72-78 | as written, after `filter(member=...)` the annotation counts only the caller's membership of each server |
| MemberCountFinding.AsWrittenCountsOnlyTheCaller | djchat/server/views.py:69-78 | as written, `by_user=true&with_num_members=true` reports one member for every server answered |
| MemberCountFinding.CallerCountedOnce | djchat/server/views.py:72-78 | as written, the count of a server the caller belongs to is 1 |
| MemberCountFinding.FinishPicksRows | djchat/server/views.py:81-95 | the id lookup and the slice answer only rows they were given |
| MemberCountFinding.AsWrittenDiffersOnlyInCounts | djchat/server/views.py:57-98 | the code as written and the model give the same error, or both succeed with the same servers in the same order: they differ only in `num_members` |
| MemberCountFinding.FinishSameServers | djchat/server/views.py:81-95 | the id lookup and the slice depend only on the servers of their rows, not on the counts attached to them |
| MemberCountFinding.AsWrittenMiscounts | djchat/server/views.py:72-78 | one server with members 7 and 8, listed by 7: the code reports 1 member, the server has 2 |

## Left out

- The database schema in `djchat/server/migrations/0001_initial.py` is not part of this model. Cascades, field lengths and the uniqueness of primary keys are the database's business. The properties that need unique keys take them as a precondition (`UniqueIds`).
- The ORM is modelled only by its list semantics: `filter`, `annotate(Count(...))`, `exists()` and slicing. SQL generation and lazy evaluation are not modelled.
- `ServerSerializer` is not part of this model. Its output shape is approximated by the rows, and each row carries `num_members` only when it was annotated. The `server_list_docs` decorator is not modelled.
- Authentication is reduced to two inputs: whether the caller is authenticated, and the caller's id.
- ServerListViewSets.ServerListViewSet.List: a `qty` that `int` rejects, or a negative one, is excluded by the precondition `QtyWellFormed`. The view does not handle these cases: `int(qty)` raises an uncaught `ValueError`, and Django refuses negative slices. So the model does not capture that such a request fails only after every other check has passed.
- ServerList.AnnotateStage: attaches the intended count, the size of each server's member set. The code as written counts only the caller after the membership filter; that version is `MemberCountFinding.AnnotateStageAsWritten`, and `MemberCountFinding.ListOutcomeAsWritten` is the whole of `list` as written.
- ServerListViewSets.ServerListViewSet.List: answers `Pipeline`, so under `by_user=true&with_num_members=...` it reports the intended member count, not the 1 per server the code as written reports (`MemberCountFinding.ListOutcomeAsWritten`). The same holds for `ServerList.Pipeline`, `ServerList.ListOutcome` and `ServerListViewSets.HandleRequest`.
- PyInt.ParseInt: accepts only ASCII decimal digits. Python's `int` also accepts other Unicode decimal digits; those are not modelled.
- PyInt.ParseInt: fixes the digit limit at its default, 4300. The limit is the interpreter's setting (`sys.set_int_max_str_digits`, `PYTHONINTMAXSTRDIGITS`, 0 for none), and Python releases before 3.11 (3.10.7, 3.9.14, 3.8.14 in their series) have no limit; other settings are not modelled.
- A repeated query key is reduced to the single value `query_params.get` returns.
- Category names are compared as exact strings. Database collation is not modelled.
- `Server.objects.all()` has no `order_by`. The model fixes one storage order and states its order properties relative to it.
- Integers are unbounded. The database's integer width for ids is not modelled.
- The class attribute `queryset` is shared by all instances. A request that sets no parameter serializes that shared queryset itself, and a request that sets only `qty` slices it (`self.queryset[:n]`); once it has been evaluated, Django answers both from its cached results across requests, which may be stale. This is not modelled: every request starts from the stored servers as they are (`HandleRequest`).
- HTTP response construction and status codes are not modelled (`djchat/server/views.py:101`).
- The React files in `reactchat/` are not part of this model. They hold no logic of the endpoint.

## Findings

| source | as written | input that shows it | evidently intended | confidence | as-written member | corrected member |
|---|---|---|---|---|---|---|
| djchat/server/views.py:72-78 | `filter(member=user_id)` runs before `annotate(num_members=Count("member"))`. Django reuses the membership join the filter restricted, so `Count("member")` counts only the caller. | `by_user=true&with_num_members=true` from user 7, with one server whose members are 7 and 8: `num_members` is 1 | `num_members` is the size of the server's member set (2). The docstring's own example asks for this very combination "to include the number of members in each Server". | not executed | MemberCountFinding.AsWrittenMiscounts, MemberCountFinding.AsWrittenCountsOnlyTheCaller | ServerList.AnnotateStage, proved by ServerListProperties.MemberCountsAreExact |

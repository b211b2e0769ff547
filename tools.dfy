/** Tool selection and dispatch for the agent: the static service table, the
    name index built from the tool server's listing, the filter that picks
    the tools of the requested services, the authorization-error handler that
    decides whether to ask the human to authorize, and the tool caller that
    builds a request and interprets the server's answer.

    The tool server itself is not modelled: its listing is an input
    (`IndexByName`), and its answer to a call is a function of the request
    (`CallTool`). */
module Tools {
  import opened Wrappers
  import opened Py
  import opened Graph

  // ---------------------------------------------------------------------
  // The service table
  // ---------------------------------------------------------------------

  /** Tool names by service. */
  type ServiceTable = map<string, seq<string>>

  const ServiceMethods: ServiceTable := map[
    "x" := [
      "X_DeleteTweetById",
      "X_LookupSingleUserByUsername",
      "X_LookupTweetById",
      "X_PostTweet",
      "X_SearchRecentTweetsByKeywords",
      "X_SearchRecentTweetsByUsername"],
    "github" := [
      "Github_CountStargazers",
      "Github_CreateIssue",
      "Github_CreateIssueComment",
      "Github_CreateReplyForReviewComment",
      "Github_CreateReviewComment",
      "Github_GetPullRequest",
      "Github_GetRepository",
      "Github_ListOrgRepositories",
      "Github_ListPullRequestCommits",
      "Github_ListPullRequests",
      "Github_ListRepositoryActivities",
      "Github_ListReviewCommentsInARepository",
      "Github_ListReviewCommentsOnPullRequest",
      "Github_ListStargazers",
      "Github_SetStarred",
      "Github_UpdatePullRequest"],
    "gmail" := [
      "Google_ListDraftEmails",
      "Google_ListEmails",
      "Google_ReplyToEmail",
      "Google_SendEmail",
      "Google_SendDraftEmail",
      "Google_WriteDraftEmail",
      "Google_WriteDraftReplyEmail",
      "Google_SearchContactsByEmail",
      "Google_SearchContactsByName"],
    "google" := [
      "Google_ChangeEmailLabels",
      "Google_CreateContact",
      "Google_CreateLabel",
      "Google_DeleteDraftEmail",
      "Google_GetThread",
      "Google_ListEmailsByHeader",
      "Google_ListLabels",
      "Google_ListThreads",
      "Google_SearchContactsByEmail",
      "Google_SearchContactsByName",
      "Google_SearchThreads",
      "Google_TrashEmail",
      "Google_UpdateDraftEmail"],
    "gcal" := [
      "Google_SearchContactsByEmail",
      "Google_SearchContactsByName",
      "Google_CreateEvent",
      "Google_ListEvents",
      "Google_UpdateEvent",
      "Google_DeleteEvent"],
    "linkedin" := ["Linkedin_CreateTextPost"],
    "search" := ["Search_SearchGoogle"],
    "hotels" := ["Search_SearchHotels"],
    "flights" := [
      "Search_SearchOneWayFlights",
      "Search_SearchRoundTripFlights"],
    "stocks" := ["Search_StockSummary", "Search_StockHistoricalData"],
    "codesandbox" := ["CodeSandbox_RunCode"]
  ]

  /** The table lists one contacts tool under three services, so the union of
      several services' names can meet the same name more than once. */
  lemma ContactsToolSharedByServices()
    ensures forall t :: t in {"gmail", "google", "gcal"} ==>
              t in ServiceMethods && "Google_SearchContactsByEmail" in ServiceMethods[t]
    ensures "codesandbox" in ServiceMethods && "Google_SearchContactsByEmail" !in ServiceMethods["codesandbox"]
  {
    assert ServiceMethods["gmail"][7] == "Google_SearchContactsByEmail";
    assert ServiceMethods["google"][8] == "Google_SearchContactsByEmail";
    assert ServiceMethods["gcal"][0] == "Google_SearchContactsByEmail";
  }

  // ---------------------------------------------------------------------
  // Sequences without repetition, order-preserving selection
  // ---------------------------------------------------------------------

  predicate Distinct<T(==)>(s: seq<T>) {
    forall i, j :: 0 <= i < j < |s| ==> s[i] != s[j]
  }

  /** `a` can be obtained from `b` by deleting elements: matching from
      the back, each element of `a` meets an equal element of `b`. */
  predicate IsSubsequence<T(==)>(a: seq<T>, b: seq<T>)
    decreases |b|
  {
    if a == [] then true
    else if b == [] then false
    else if a[|a| - 1] == b[|b| - 1] then IsSubsequence(a[..|a| - 1], b[..|b| - 1])
    else IsSubsequence(a, b[..|b| - 1])
  }

  /** The elements of `ids` that are in `allowed`, in their order in `ids`
      (the list comprehension that filters the tool ids). */
  function KeepAllowed(ids: seq<string>, allowed: set<string>): (r: seq<string>)
    ensures forall x :: x in r <==> x in ids && x in allowed
    ensures IsSubsequence(r, ids)
    ensures Distinct(ids) ==> Distinct(r)
    decreases |ids|
  {
    if ids == [] then []
    else
      var r := KeepAllowed(ids[..|ids| - 1], allowed);
      var last := ids[|ids| - 1];
      assert ids == ids[..|ids| - 1] + [last];
      if last in allowed then r + [last] else r
  }

  /** The filter keeps every allowed id as often as it occurs, and no other. */
  lemma {:induction false} KeepAllowedCounts(ids: seq<string>, allowed: set<string>, x: string)
    ensures multiset(KeepAllowed(ids, allowed))[x] == if x in allowed then multiset(ids)[x] else 0
    decreases |ids|
  {
    if ids != [] {
      var init := ids[..|ids| - 1];
      var last := ids[|ids| - 1];
      assert ids == init + [last];
      KeepAllowedCounts(init, allowed, x);
      var r := KeepAllowed(init, allowed);
      if last in allowed {
        assert KeepAllowed(ids, allowed) == r + [last];
      }
    }
  }

  /** Filtering twice is filtering once by both sets. */
  lemma {:induction false} KeepAllowedTwice(ids: seq<string>, a: set<string>, b: set<string>)
    ensures KeepAllowed(KeepAllowed(ids, a), b) == KeepAllowed(ids, a * b)
    decreases |ids|
  {
    if ids != [] {
      var init := ids[..|ids| - 1];
      var last := ids[|ids| - 1];
      KeepAllowedTwice(init, a, b);
      var once := KeepAllowed(init, a);
      if last in a {
        assert (once + [last])[..|once + [last]| - 1] == once;
      }
    }
  }

  // ---------------------------------------------------------------------
  // The name index of the tool listing
  // ---------------------------------------------------------------------

  /** A tool as the tool server lists it. */
  datatype ToolItem = ToolItem(name: string, description: string, inputSchema: Json)

  /** The listing indexed by name: `toolIds` are the keys of `byName` in the
      dictionary's insertion order. */
  datatype Catalogue = Catalogue(toolIds: seq<string>, byName: map<string, ToolItem>)

  function Names(items: seq<ToolItem>): set<string> {
    set i | 0 <= i < |items| :: items[i].name
  }

  /** The position of the first listed item called `n`. */
  function FirstListed(items: seq<ToolItem>, n: string): (k: nat)
    requires n in Names(items)
    ensures k < |items| && items[k].name == n
    ensures forall j :: 0 <= j < k ==> items[j].name != n
    decreases |items|
  {
    var init := items[..|items| - 1];
    if n in Names(init) then FirstListed(init, n)
    else
      assert forall j :: 0 <= j < |items| - 1 ==> init[j].name in Names(init);
      |items| - 1
  }

  lemma NamesSnoc(items: seq<ToolItem>)
    requires items != []
    ensures Names(items) == Names(items[..|items| - 1]) + {items[|items| - 1].name}
  {
    var init := items[..|items| - 1];
    forall n | n in Names(items) ensures n in Names(init) + {items[|items| - 1].name} {
      var i :| 0 <= i < |items| && items[i].name == n;
      if i < |items| - 1 {
        assert init[i].name == n;
      }
    }
    forall n | n in Names(init) ensures n in Names(items) {
      var i :| 0 <= i < |init| && init[i].name == n;
      assert items[i].name == n;
    }
  }

  /** `{tool.name: tool for tool in items}` together with the list of its
      keys: every listed name once, each name mapped to an item of that
      name. */
  function IndexByName(items: seq<ToolItem>): (c: Catalogue)
    ensures Distinct(c.toolIds)
    ensures forall n :: n in c.toolIds <==> n in c.byName
    ensures c.byName.Keys == Names(items)
    ensures forall n :: n in c.byName ==> c.byName[n].name == n
    decreases |items|
  {
    if items == [] then Catalogue([], map[])
    else
      var c := IndexByName(items[..|items| - 1]);
      var item := items[|items| - 1];
      NamesSnoc(items);
      Catalogue(if item.name in c.byName then c.toolIds else c.toolIds + [item.name],
                c.byName[item.name := item])
  }

  /** The ids come in order of first listing, as a dictionary keeps the
      insertion position of a key that is assigned again. */
  lemma {:induction false} IndexInListingOrder(items: seq<ToolItem>, i: nat, j: nat)
    requires i < j < |IndexByName(items).toolIds|
    ensures FirstListed(items, IndexByName(items).toolIds[i]) < FirstListed(items, IndexByName(items).toolIds[j])
    decreases |items|
  {
    var init := items[..|items| - 1];
    var c := IndexByName(init);
    var ids := IndexByName(items).toolIds;
    NamesSnoc(items);
    assert FirstListed(items, ids[i]) == FirstListed(init, ids[i]);
    if j < |c.toolIds| {
      assert FirstListed(items, ids[j]) == FirstListed(init, ids[j]);
      IndexInListingOrder(init, i, j);
    } else {
      assert ids[j] !in Names(init);
      assert FirstListed(items, ids[j]) == |items| - 1;
    }
  }

  /** Last writer wins: a name maps to the last item listed under it. */
  lemma {:induction false} IndexKeepsLastListed(items: seq<ToolItem>, j: nat)
    requires j < |items|
    requires forall k :: j < k < |items| ==> items[k].name != items[j].name
    ensures IndexByName(items).byName[items[j].name] == items[j]
    decreases |items|
  {
    if j < |items| - 1 {
      var init := items[..|items| - 1];
      IndexKeepsLastListed(init, j);
    }
  }

  // ---------------------------------------------------------------------
  // Filtering by service
  // ---------------------------------------------------------------------

  /** The names `service_methods[t]` lists, or none for an unknown type. */
  function MethodsOf(table: ServiceTable, toolType: string): (r: set<string>)
    ensures forall m :: m in r <==> toolType in table && m in table[toolType]
  {
    if toolType in table then set m | m in table[toolType] else {}
  }

  /** The union of the names of every known type in `toolTypes`. */
  function AllowedNames(table: ServiceTable, toolTypes: seq<string>): (r: set<string>)
    ensures forall i :: 0 <= i < |toolTypes| ==> MethodsOf(table, toolTypes[i]) <= r
    ensures forall n :: n in r ==> exists t :: t in table && n in table[t]
    decreases |toolTypes|
  {
    if toolTypes == [] then {}
    else AllowedNames(table, toolTypes[..|toolTypes| - 1]) + MethodsOf(table, toolTypes[|toolTypes| - 1])
  }

  /** A name is allowed exactly when some known requested type lists it. */
  lemma {:induction false} AllowedNamesMeaning(table: ServiceTable, toolTypes: seq<string>, n: string)
    ensures n in AllowedNames(table, toolTypes) <==>
            exists i :: 0 <= i < |toolTypes| && toolTypes[i] in table && n in table[toolTypes[i]]
    decreases |toolTypes|
  {
    if toolTypes != [] {
      var init := toolTypes[..|toolTypes| - 1];
      AllowedNamesMeaning(table, init, n);
      if exists i :: 0 <= i < |init| && init[i] in table && n in table[init[i]] {
        var i :| 0 <= i < |init| && init[i] in table && n in table[init[i]];
        assert toolTypes[i] == init[i];
      }
      if exists i :: 0 <= i < |toolTypes| && toolTypes[i] in table && n in table[toolTypes[i]] {
        var i :| 0 <= i < |toolTypes| && toolTypes[i] in table && n in table[toolTypes[i]];
        if i < |init| {
          assert init[i] == toolTypes[i];
        }
      }
    }
  }

  /** The requested types the table knows, in request order. */
  function KnownTypes(table: ServiceTable, toolTypes: seq<string>): (r: seq<string>)
    ensures forall t :: t in r <==> t in toolTypes && t in table
    ensures IsSubsequence(r, toolTypes)
    decreases |toolTypes|
  {
    if toolTypes == [] then []
    else
      var init := toolTypes[..|toolTypes| - 1];
      var last := toolTypes[|toolTypes| - 1];
      assert toolTypes == init + [last];
      var r := KnownTypes(table, init);
      if last in table then
        assert (r + [last])[..|r|] == r;
        r + [last]
      else
        assert r != [] ==> r[|r| - 1] in table;
        r
  }

  /** Unknown types contribute nothing to the allowed names. */
  lemma {:induction false} UnknownTypesAddNothing(table: ServiceTable, toolTypes: seq<string>)
    ensures AllowedNames(table, toolTypes) == AllowedNames(table, KnownTypes(table, toolTypes))
    decreases |toolTypes|
  {
    if toolTypes != [] {
      var init := toolTypes[..|toolTypes| - 1];
      var last := toolTypes[|toolTypes| - 1];
      UnknownTypesAddNothing(table, init);
      if last in table {
        var k := KnownTypes(table, init) + [last];
        assert KnownTypes(table, toolTypes) == k;
        assert k[..|k| - 1] == KnownTypes(table, init);
        assert AllowedNames(table, k) == AllowedNames(table, KnownTypes(table, init)) + MethodsOf(table, last);
      } else {
        assert KnownTypes(table, toolTypes) == KnownTypes(table, init);
      }
    }
  }

  // ---------------------------------------------------------------------
  // Building the structured tools
  // ---------------------------------------------------------------------

  /** A structured tool handed to the agent: the listed item's name,
      description and input schema, and the tool id its caller invokes. */
  datatype StructuredTool = StructuredTool(
    name: string,
    description: string,
    argsSchema: Json,
    callerToolId: string)

  function MakeTool(item: ToolItem, toolId: string): (t: StructuredTool)
    ensures t.name == item.name && t.description == item.description && t.argsSchema == item.inputSchema
    ensures t.callerToolId == toolId
  {
    StructuredTool(item.name, item.description, item.inputSchema, toolId)
  }

  function CallerIds(tools: seq<StructuredTool>): (r: seq<string>)
    ensures |r| == |tools| && forall k :: 0 <= k < |tools| ==> r[k] == tools[k].callerToolId
  {
    seq(|tools|, k requires 0 <= k < |tools| => tools[k].callerToolId)
  }

  /** One tool per id of `ids` that `byName` knows, in the order of `ids`;
      unknown ids are skipped. */
  function BuildTools(ids: seq<string>, byName: map<string, ToolItem>): (tools: seq<StructuredTool>)
    ensures forall t :: t in tools ==>
              t.callerToolId in ids && t.callerToolId in byName && t == MakeTool(byName[t.callerToolId], t.callerToolId)
    decreases |ids|
  {
    if ids == [] then []
    else
      var init := ids[..|ids| - 1];
      var last := ids[|ids| - 1];
      assert ids == init + [last];
      BuildTools(init, byName) + (if last in byName then [MakeTool(byName[last], last)] else [])
  }

  /** The tools built are exactly those of the ids `byName` knows. */
  lemma {:induction false} BuildToolsCallerIds(ids: seq<string>, byName: map<string, ToolItem>)
    ensures CallerIds(BuildTools(ids, byName)) == KeepAllowed(ids, byName.Keys)
    decreases |ids|
  {
    if ids != [] {
      var init := ids[..|ids| - 1];
      BuildToolsCallerIds(init, byName);
      var last := ids[|ids| - 1];
      if last in byName {
        var b := BuildTools(init, byName);
        assert CallerIds(b + [MakeTool(byName[last], last)]) == CallerIds(b) + [last];
      }
    }
  }

  /** The ids kept before the tools are built: all of them when no type, or
      an empty list of types, is requested; otherwise those the requested
      services allow. */
  function KeptIds(table: ServiceTable, toolTypes: Option<seq<string>>, toolIds: seq<string>): (r: seq<string>)
    ensures IsSubsequence(r, toolIds)
    ensures toolTypes == None || toolTypes == Some([]) ==> r == toolIds
    ensures toolTypes.Some? && toolTypes.value != [] ==>
              forall n :: n in r <==> n in toolIds && n in AllowedNames(table, toolTypes.value)
  {
    match toolTypes
    case None => SubsequenceOfItself(toolIds); toolIds
    case Some(types) =>
      if types == [] then SubsequenceOfItself(toolIds); toolIds
      else KeepAllowed(toolIds, AllowedNames(table, types))
  }

  lemma {:induction false} SubsequenceOfItself<T>(s: seq<T>)
    ensures IsSubsequence(s, s)
    decreases |s|
  {
    if s != [] {
      SubsequenceOfItself(s[..|s| - 1]);
    }
  }

  /** The tools `get_tools` returns for a listing indexed as `catalogue`. */
  function ToolsFor(table: ServiceTable, toolTypes: Option<seq<string>>, catalogue: Catalogue): (tools: seq<StructuredTool>)
    ensures forall t :: t in tools ==>
              && t.callerToolId in catalogue.toolIds
              && t.callerToolId in catalogue.byName
              && t == MakeTool(catalogue.byName[t.callerToolId], t.callerToolId)
  {
    BuildTools(KeptIds(table, toolTypes, catalogue.toolIds), catalogue.byName)
  }

  /** The body of `get_tools` over a given service table: grows the
      allowed-name set over the requested types, filters the ids by it, then
      builds a tool for each id the catalogue knows. */
  method GetToolsFrom(table: ServiceTable, toolTypes: Option<seq<string>>, catalogue: Catalogue) returns (tools: seq<StructuredTool>)
    ensures tools == ToolsFor(table, toolTypes, catalogue)
    ensures forall t :: t in tools ==> t.callerToolId in catalogue.toolIds && t.callerToolId in catalogue.byName
  {
    var toolIds := catalogue.toolIds;
    if toolTypes.Some? && toolTypes.value != [] {
      var types := toolTypes.value;
      var allowed: set<string> := {};
      for i := 0 to |types|
        invariant allowed == AllowedNames(table, types[..i])
      {
        assert types[..i + 1][..i] == types[..i];
        var t := types[i];
        if t in table {
          allowed := allowed + set m | m in table[t];
        }
      }
      assert types[..|types|] == types;
      toolIds := KeepAllowed(toolIds, allowed);
    }
    tools := [];
    for i := 0 to |toolIds|
      invariant tools == BuildTools(toolIds[..i], catalogue.byName)
    {
      assert toolIds[..i + 1][..i] == toolIds[..i];
      var toolId := toolIds[i];
      if toolId !in catalogue.byName {
        continue;
      }
      tools := tools + [MakeTool(catalogue.byName[toolId], toolId)];
    }
    assert toolIds[..|toolIds|] == toolIds;
    assert KeptIds(table, toolTypes, catalogue.toolIds) == toolIds;
    KeptIdsAreListed(table, toolTypes, catalogue.toolIds);
  }

  /** `get_tools`: indexes the tool server's listing, then selects with the
      module's service table. No kept id is skipped, no tool is produced
      twice, and each tool's name is its id. */
  method GetTools(toolTypes: Option<seq<string>>, items: seq<ToolItem>) returns (tools: seq<StructuredTool>)
    ensures tools == ToolsFor(ServiceMethods, toolTypes, IndexByName(items))
    ensures CallerIds(tools) == KeptIds(ServiceMethods, toolTypes, IndexByName(items).toolIds)
    ensures Distinct(CallerIds(tools))
    ensures forall t :: t in tools ==> t.name == t.callerToolId
  {
    var catalogue := IndexByName(items);
    tools := GetToolsFrom(ServiceMethods, toolTypes, catalogue);
    ListedToolsAllBuilt(ServiceMethods, toolTypes, items);
  }

  lemma KeptIdsAreListed(table: ServiceTable, toolTypes: Option<seq<string>>, toolIds: seq<string>)
    ensures forall n :: n in KeptIds(table, toolTypes, toolIds) ==> n in toolIds
  {
  }

  // ---------------------------------------------------------------------
  // What get_tools promises
  // ---------------------------------------------------------------------

  /** With no types, or an empty list of types, nothing is filtered: every
      catalogued id gets a tool, in catalogue order. */
  lemma NoTypesKeepsEveryTool(table: ServiceTable, toolTypes: Option<seq<string>>, catalogue: Catalogue)
    requires toolTypes == None || toolTypes == Some([])
    requires forall n :: n in catalogue.toolIds ==> n in catalogue.byName
    ensures CallerIds(ToolsFor(table, toolTypes, catalogue)) == catalogue.toolIds
  {
    BuildToolsCallerIds(catalogue.toolIds, catalogue.byName);
    KeepAllowedAll(catalogue.toolIds, catalogue.byName.Keys);
  }

  lemma {:induction false} KeepAllowedAll(ids: seq<string>, allowed: set<string>)
    requires forall n :: n in ids ==> n in allowed
    ensures KeepAllowed(ids, allowed) == ids
    decreases |ids|
  {
    if ids != [] {
      var init := ids[..|ids| - 1];
      var last := ids[|ids| - 1];
      assert ids == init + [last];
      KeepAllowedAll(init, allowed);
      assert last in allowed;
      assert KeepAllowed(ids, allowed) == KeepAllowed(init, allowed) + [last];
    }
  }

  /** With a non-empty list of types, an id gets a tool exactly when it is
      catalogued and some known requested service lists it. */
  lemma RequestedTypesSelectExactly(table: ServiceTable, types: seq<string>, catalogue: Catalogue, n: string)
    requires types != []
    ensures n in CallerIds(ToolsFor(table, Some(types), catalogue)) <==>
            && n in catalogue.toolIds
            && n in catalogue.byName
            && exists i :: 0 <= i < |types| && types[i] in table && n in table[types[i]]
  {
    var kept := KeepAllowed(catalogue.toolIds, AllowedNames(table, types));
    BuildToolsCallerIds(kept, catalogue.byName);
    AllowedNamesMeaning(table, types, n);
  }

  /** The tools come in the relative order of the catalogue's ids. */
  lemma ToolsKeepCatalogueOrder(table: ServiceTable, toolTypes: Option<seq<string>>, catalogue: Catalogue)
    ensures IsSubsequence(CallerIds(ToolsFor(table, toolTypes, catalogue)), catalogue.toolIds)
  {
    var ids := catalogue.toolIds;
    var keys := catalogue.byName.Keys;
    var kept := KeptIds(table, toolTypes, ids);
    BuildToolsCallerIds(kept, catalogue.byName);
    if kept != ids {
      var types := toolTypes.value;
      KeepAllowedTwice(ids, AllowedNames(table, types), keys);
    }
  }

  /** Requesting only unknown types selects nothing. */
  lemma OnlyUnknownTypesSelectNothing(table: ServiceTable, types: seq<string>, catalogue: Catalogue)
    requires types != []
    requires forall t :: t in types ==> t !in table
    ensures ToolsFor(table, Some(types), catalogue) == []
  {
    UnknownTypesAddNothing(table, types);
    assert KnownTypes(table, types) == [];
    KeepAllowedNone(catalogue.toolIds);
  }

  lemma {:induction false} KeepAllowedNone(ids: seq<string>)
    ensures KeepAllowed(ids, {}) == []
    decreases |ids|
  {
    if ids != [] {
      KeepAllowedNone(ids[..|ids| - 1]);
    }
  }

  /** Unknown types change nothing when known ones are requested beside them. */
  lemma UnknownTypesIgnored(table: ServiceTable, types: seq<string>, catalogue: Catalogue)
    requires KnownTypes(table, types) != []
    ensures ToolsFor(table, Some(types), catalogue) == ToolsFor(table, Some(KnownTypes(table, types)), catalogue)
  {
    UnknownTypesAddNothing(table, types);
  }

  /** No tool id is produced twice when the catalogue's ids are distinct,
      however many services list the same name. */
  lemma ToolsAreDistinct(table: ServiceTable, toolTypes: Option<seq<string>>, catalogue: Catalogue)
    requires Distinct(catalogue.toolIds)
    ensures Distinct(CallerIds(ToolsFor(table, toolTypes, catalogue)))
  {
    var kept := KeptIds(table, toolTypes, catalogue.toolIds);
    BuildToolsCallerIds(kept, catalogue.byName);
  }

  /** For a catalogue indexed from a listing no id is skipped, tool names
      equal their ids, and no tool is produced twice. */
  lemma ListedToolsAllBuilt(table: ServiceTable, toolTypes: Option<seq<string>>, items: seq<ToolItem>)
    ensures CallerIds(ToolsFor(table, toolTypes, IndexByName(items))) == KeptIds(table, toolTypes, IndexByName(items).toolIds)
    ensures Distinct(CallerIds(ToolsFor(table, toolTypes, IndexByName(items))))
    ensures forall t :: t in ToolsFor(table, toolTypes, IndexByName(items)) ==> t.name == t.callerToolId
  {
    var c := IndexByName(items);
    var kept := KeptIds(table, toolTypes, c.toolIds);
    BuildToolsCallerIds(kept, c.byName);
    KeptIdsAreListed(table, toolTypes, c.toolIds);
    KeepAllowedAll(kept, c.byName.Keys);
    ToolsAreDistinct(table, toolTypes, c);
  }

  // ---------------------------------------------------------------------
  // Authorization errors
  // ---------------------------------------------------------------------

  /** The one interrupt raised when the server asks the user to authorize:
      an "Auth" action carrying the URL, which the human may only accept. */
  function AuthInterrupt(url: Json): (h: HumanInterrupt)
    ensures h.actionRequest.action == "Auth"
    ensures h.actionRequest.args.Keys == {"url"} && h.actionRequest.args["url"] == url
    ensures h.config.allowAccept && !h.config.allowIgnore && !h.config.allowRespond && !h.config.allowEdit
    ensures h.description.None?
  {
    HumanInterrupt(
      ActionRequest("Auth", map["url" := url]),
      HumanInterruptConfig(allowIgnore := false, allowRespond := false, allowEdit := false, allowAccept := true),
      None)
  }

  /** `_handle_authorization_error`: walks the error body with Python's `in`,
      `[]` and `len`, returning with no effect as soon as a guard fails, and
      yields the interrupt payload when every guard passes. An error raised
      by an operator on an unexpected shape escapes. The user id only
      appears in a log line. */
  function HandleAuthorizationError(errorBody: Json, userId: string): (r: Result<Option<seq<HumanInterrupt>>, PyError>)
    ensures r.Ok? && r.value.Some? ==>
              RequestedAuthUrl(errorBody).Some? && r.value.value == [AuthInterrupt(RequestedAuthUrl(errorBody).value)]
    ensures r.Err? ==> r.error == TypeError || r.error == KeyError
    ensures !(errorBody.JDict? || errorBody.JList? || errorBody.JStr?) ==> r == Err(TypeError)
  {
    var hasRequirements :- Contains(errorBody, "missing_requirements");
    if !hasRequirements then Ok(None)
    else
      var missingReq :- GetItem(errorBody, "missing_requirements");
      var hasAuthorization :- Contains(missingReq, "authorization");
      if !hasAuthorization then Ok(None)
      else
        var authorization :- GetItem(missingReq, "authorization");
        if !Truthy(authorization) then Ok(None)
        else
          var count :- Len(authorization);
          if count != 1 then Ok(None)
          else
            var auth :- ItemAt(authorization, 0);
            var hasUrl :- Contains(auth, "authorization_url");
            if !hasUrl then Ok(None)
            else
              var url :- GetItem(auth, "authorization_url");
              Ok(Some([AuthInterrupt(url)]))
  }

  /** The authorization URL an error body asks for, read structurally:
      `missing_requirements` is a dictionary whose `authorization` entry is a
      one-element list whose element is a dictionary with an
      `authorization_url` entry. */
  function RequestedAuthUrl(errorBody: Json): Option<Json> {
    if errorBody.JDict? && "missing_requirements" in errorBody.fields then
      var req := errorBody.fields["missing_requirements"];
      if req.JDict? && "authorization" in req.fields then
        var authorization := req.fields["authorization"];
        if authorization.JList? && |authorization.items| == 1
           && authorization.items[0].JDict? && "authorization_url" in authorization.items[0].fields
        then Some(authorization.items[0].fields["authorization_url"])
        else None
      else None
    else None
  }

  /** An interrupt is raised exactly when the body asks for authorization,
      and it is then the single "Auth" request for that URL. */
  lemma AuthInterruptExactlyWhenRequested(errorBody: Json, userId: string)
    ensures (HandleAuthorizationError(errorBody, userId).Ok? && HandleAuthorizationError(errorBody, userId).value.Some?)
            <==> RequestedAuthUrl(errorBody).Some?
    ensures RequestedAuthUrl(errorBody).Some? ==>
              var p := HandleAuthorizationError(errorBody, userId).value.value;
              && |p| == 1
              && p[0].actionRequest.action == "Auth"
              && p[0].actionRequest.args == map["url" := RequestedAuthUrl(errorBody).value]
              && p[0].config.allowAccept
              && !p[0].config.allowIgnore && !p[0].config.allowRespond && !p[0].config.allowEdit
              && p[0].description.None?
  {
  }

  /** A body shaped as the server sends it never makes the handler raise. */
  predicate WellShapedErrorBody(errorBody: Json) {
    && errorBody.JDict?
    && ("missing_requirements" in errorBody.fields ==>
          var req := errorBody.fields["missing_requirements"];
          && req.JDict?
          && ("authorization" in req.fields ==>
                var authorization := req.fields["authorization"];
                && (authorization.JList? || !Truthy(authorization))
                && (authorization.JList? && |authorization.items| == 1 ==> authorization.items[0].JDict?)))
  }

  lemma WellShapedBodyNeverRaises(errorBody: Json, userId: string)
    requires WellShapedErrorBody(errorBody)
    ensures HandleAuthorizationError(errorBody, userId).Ok?
  {
  }

  /** A body that is `None`, or a list holding the key as an element, makes
      the handler raise a TypeError. */
  lemma NonDictionaryBodiesRaise(userId: string)
    ensures HandleAuthorizationError(JNone, userId) == Err(TypeError)
    ensures HandleAuthorizationError(JList([JStr("missing_requirements")]), userId) == Err(TypeError)
  {
  }

  // ---------------------------------------------------------------------
  // Calling a tool
  // ---------------------------------------------------------------------

  datatype Context = Context(userId: string)

  /** The request sent to the tool server. */
  datatype Request = Request(toolId: string, context: Context, input: map<string, Json>)

  datatype ToolCallResponse = ToolCallResponse(success: bool, error: Option<string>, value: Json)

  /** An exception other than an API status error. */
  type OtherError = e: PyError | !e.ApiStatusError? witness TypeError

  /** What the tool server's `call` did with a request: answered, raised an
      API status error (with or without a body), or raised something else. */
  datatype ClientOutcome =
    | Responded(response: ToolCallResponse)
    | StatusError(body: Option<Json>)
    | Failed(failure: OtherError)

  /** How a tool call ends: a value, a raised error, or a human interrupt. */
  datatype CallResult =
    | Returned(value: Json)
    | Raised(error: PyError)
    | Interrupted(interrupts: seq<HumanInterrupt>)

  const MissingUserMessage: string := "Missing langgraph_auth_user_id in configuration"
  const UnknownErrorMessage: string := "Unknown error occurred"

  /** `response.error or "Unknown error occurred"`. */
  function FailureText(error: Option<string>): (r: string)
    ensures r != ""
    ensures error.Some? && error.value != "" ==> r == error.value
    ensures error.None? || error == Some("") ==> r == UnknownErrorMessage
  {
    if error.Some? && error.value != "" then error.value else UnknownErrorMessage
  }

  /** `call_tool` for tool `toolId`. `clientError` is the error raised while
      the client was created, if any; `userId` the configured user; `call`
      the server's answer to each request. */
  function CallTool(
    toolId: string,
    clientError: Option<PyError>,
    userId: Option<string>,
    kwargs: map<string, Json>,
    call: Request -> ClientOutcome): (r: CallResult)
    ensures clientError.Some? ==> r == Raised(clientError.value)
    ensures r.Returned? ==>
              && clientError.None? && userId.Some? && userId.value != ""
              && (var outcome := call(Request(toolId, Context(userId.value), kwargs));
                  outcome.Responded? && outcome.response.success && outcome.response.value == r.value)
    ensures r.Interrupted? ==>
              && clientError.None? && userId.Some? && userId.value != ""
              && (var outcome := call(Request(toolId, Context(userId.value), kwargs));
                  && outcome.StatusError? && outcome.body.Some?
                  && RequestedAuthUrl(outcome.body.value).Some?
                  && r.interrupts == [AuthInterrupt(RequestedAuthUrl(outcome.body.value).value)])
    ensures clientError.None? && userId.Some? && userId.value != "" ==>
              var outcome := call(Request(toolId, Context(userId.value), kwargs));
              && (outcome.Failed? ==> r == Raised(outcome.failure))
              && (outcome.StatusError? && outcome.body.None? ==> r == Raised(ApiStatusError(None)))
              && (outcome.StatusError? && outcome.body.Some? ==>
                    var h := HandleAuthorizationError(outcome.body.value, userId.value);
                    && (h.Err? ==> r == Raised(h.error))
                    && (h == Ok(None) ==> r == Raised(ApiStatusError(outcome.body))))
  {
    if clientError.Some? then Raised(clientError.value)
    else if userId.None? || userId.value == "" then Raised(ValueError(MissingUserMessage))
    else
      var request := Request(toolId, Context(userId.value), kwargs);
      match call(request)
      case Responded(response) =>
        if !response.success then
          Raised(ValueError("Tool call to " + toolId + " failed: " + FailureText(response.error)))
        else Returned(response.value)
      case StatusError(body) =>
        if body.None? then Raised(ApiStatusError(body))
        else
          (match HandleAuthorizationError(body.value, userId.value)
           case Err(e) => Raised(e)
           case Ok(Some(interrupts)) => Interrupted(interrupts)
           case Ok(None) => Raised(ApiStatusError(body)))
      case Failed(e) => Raised(e)
  }

  /** A missing or empty user id raises before any request is sent: the
      result does not depend on the server at all. */
  lemma MissingUserRaisesBeforeCalling(
    toolId: string, userId: Option<string>, kwargs: map<string, Json>, call: Request -> ClientOutcome)
    requires userId == None || userId == Some("")
    ensures CallTool(toolId, None, userId, kwargs, call) == Raised(ValueError(MissingUserMessage))
  {
  }

  /** The server is asked exactly one thing: the request carrying the tool
      id, the user id as context, and the keyword arguments as input. Two
      servers that answer that request alike give the same result. */
  lemma CallDependsOnlyOnTheRequest(
    toolId: string, user: string, kwargs: map<string, Json>,
    call1: Request -> ClientOutcome, call2: Request -> ClientOutcome)
    requires user != ""
    requires call1(Request(toolId, Context(user), kwargs)) == call2(Request(toolId, Context(user), kwargs))
    ensures CallTool(toolId, None, Some(user), kwargs, call1) == CallTool(toolId, None, Some(user), kwargs, call2)
  {
  }

  /** An unsuccessful response raises a ValueError naming the tool whose
      message contains the server's error, or "Unknown error occurred" when
      that is missing or empty; a successful one returns its value. */
  lemma ResponseHandling(
    toolId: string, user: string, kwargs: map<string, Json>, call: Request -> ClientOutcome)
    requires user != ""
    requires call(Request(toolId, Context(user), kwargs)).Responded?
    ensures var response := call(Request(toolId, Context(user), kwargs)).response;
            var r := CallTool(toolId, None, Some(user), kwargs, call);
            && (response.success ==> r == Returned(response.value))
            && (!response.success ==>
                  && r.Raised? && r.error.ValueError?
                  && IsSubstring(toolId, r.error.message)
                  && (response.error.Some? && response.error.value != "" ==> IsSubstring(response.error.value, r.error.message))
                  && (response.error.None? || response.error == Some("") ==> IsSubstring(UnknownErrorMessage, r.error.message)))
  {
    var response := call(Request(toolId, Context(user), kwargs)).response;
    if !response.success {
      var text := FailureText(response.error);
      var msg := "Tool call to " + toolId + " failed: " + text;
      var at := |"Tool call to " + toolId + " failed: "|;
      assert msg[|"Tool call to "|..|"Tool call to "| + |toolId|] == toolId;
      assert OccursAt(toolId, msg, |"Tool call to "|);
      IsSubstringAt(toolId, msg);
      assert msg[at..at + |text|] == text;
      assert OccursAt(text, msg, at);
      IsSubstringAt(text, msg);
    }
  }

  /** An API status error with a body interrupts exactly when the body asks
      for authorization; otherwise the error is raised again. */
  lemma StatusErrorInterruptsOnlyForAuthorization(
    toolId: string, user: string, kwargs: map<string, Json>, call: Request -> ClientOutcome, body: Json)
    requires user != ""
    requires call(Request(toolId, Context(user), kwargs)) == StatusError(Some(body))
    requires WellShapedErrorBody(body)
    ensures var r := CallTool(toolId, None, Some(user), kwargs, call);
            && (RequestedAuthUrl(body).Some? ==> r == Interrupted([AuthInterrupt(RequestedAuthUrl(body).value)]))
            && (RequestedAuthUrl(body).None? ==> r == Raised(ApiStatusError(Some(body))))
  {
    AuthInterruptExactlyWhenRequested(body, user);
    WellShapedBodyNeverRaises(body, user);
  }
}

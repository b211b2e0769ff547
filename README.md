# Agent backend: tool selection, tool calls and helpers

This project models the deterministic core of a small ReAct agent backend
written in Python, and proves properties of the model in Dafny.

- `tools.py` selects the tools the agent may use. A static table maps each
  service ("x", "github", "gmail", ...) to the tool names it offers.
  `get_tools` filters the ids of the tool server's listing by the requested
  services and builds one structured tool per id. `call_tool` builds the
  request for one tool, rejects a missing user, and maps the server's answer
  to a value or an error. When the server answers with an API status error,
  `_handle_authorization_error` decides whether the error body asks the
  user to authorize. It then raises a human interrupt whose payload is
  fixed apart from the authorization URL it carries.
- `utils.py` provides these helpers:
  - the text of a chat message;
  - the `provider/model` split of a model name;
  - `State`, an attribute store backed by a dictionary;
  - the table of time-zone offsets, adjusted for daylight saving time by
    month, that the system prompt's clock lines come from.

Files:

- `wrappers.dfy` (module `Wrappers`): `Option` and `Result`.
- `py.dfy` (module `Py`): the parts of Python's value model the code depends
  on. This covers JSON-shaped dynamic values (`Json`) and the exceptions the
  code raises (`PyError`). It also covers truthiness and the `in`, `[]` and
  `len` operators, including the `TypeError` or `KeyError` each raises on a
  value of the wrong shape. Finally it covers `str.strip`, `"".join`,
  `sep.join` and the search for the first `/` behind
  `split("/", maxsplit=1)`. `Split` there is only a reference definition: it
  undoes a join, and the model uses it to state how many lines the clock
  text has.
- `graph.dfy` (module `Graph`): the `HumanInterrupt` record shape declared in
  `graph.py`.
- `tools.dfy` (module `Tools`) and `utils.dfy` (module `Utils`): one module
  per core source file.

How each part is modelled:

- `get_tools` is a method with the source's two loops. One loop grows the
  allowed-name set; the other appends tools, using `continue` to skip an id.
  The method is proved equal to the specification function `ToolsFor`, and
  the promised properties are lemmas about `ToolsFor`. The loops run in
  `GetToolsFrom`, which takes the service table as a parameter. `GetTools`
  is the source's function and calls `GetToolsFrom` with the module's
  table `ServiceMethods`.
- `State` is a class with a `map` field.
- `get_formatted_times` is a method. It builds the offset dictionary by
  in-place `+= 1` updates (`ZoneOffsets`) and appends one line per zone in a
  loop. `FormattedTimes` builds each line as the code does, and
  `FormattedTimesCorrected` is the same loop with each zone's local reading
  (see "## Findings").
- Everything else is a function.

Inputs of the model:

- The wall clock (`datetime.now`) is an integer reading in seconds, and the
  month is a separate integer.
- `strftime` is a formatter function passed in.
- The configured user id is an `Option<string>`.
- The error raised while creating the client, if any, is an
  `Option<PyError>`.
- The tool server's `call` is a function from `Request` to `ClientOutcome`.
  A `ClientOutcome` is a response, an API status error (with a body, or
  without the attribute), or some other exception. The type of that last
  case excludes API status errors, so every status error with a body goes
  through the authorization handler, as in the source.
- The tool listing is a sequence of `ToolItem`s, and
  `_get_available_tools` is the function `IndexByName` over it.
- The interrupt is a returned value: `Interrupted(payload)` from `CallTool`,
  and `Some(payload)` from `HandleAuthorizationError`.

## Model

| member | source | states |
|---|---|---|
| Tools.ContactsToolSharedByServices | backend/src/react_agent/tools.py:19-91 | the service table lists `Google_SearchContactsByEmail` under gmail, google and gcal, so several services can allow the same name; it is not under codesandbox |
| Tools.KeepAllowed | backend/src/react_agent/tools.py:265 | the id filter keeps exactly the ids in the allowed set, in their order in `tool_ids` (a subsequence), and keeps distinct ids distinct |
| Tools.KeepAllowedCounts | backend/src/react_agent/tools.py:265 | the filter keeps each allowed id as often as it occurs in `tool_ids`, and no other id |
| Tools.KeepAllowedTwice | backend/src/react_agent/tools.py:265 | filtering by one set and then by another equals filtering once by their intersection |
| Tools.IndexByName | backend/src/react_agent/tools.py:135-136 | the name index holds every listed name exactly once as a key; `tool_ids` lists the same names without repetition, and each name maps to an item of that name |
| Tools.IndexInListingOrder | backend/src/react_agent/tools.py:135-136 | `list(dict)` orders the names by their first listing, because reassigning a key keeps its insertion position |
| Tools.IndexKeepsLastListed | backend/src/react_agent/tools.py:135 | last writer wins: a name maps to the last item listed under it |
| Tools.AllowedNamesMeaning | backend/src/react_agent/tools.py:258-263 | a name is in the allowed set exactly when the service table lists it under some requested type |
| Tools.AllowedNames | backend/src/react_agent/tools.py:258-263 | the set grown over the requested types contains the names of every known requested type, and each name in it is listed under some type of the table |
| Tools.MethodsOf | backend/src/react_agent/tools.py:260-261 | the names one type adds: exactly those the table lists under it, and none for a type the table does not know |
| Tools.KnownTypes | backend/src/react_agent/tools.py:259-263 | the requested types the table knows, in request order: a subsequence of the request, holding a type exactly when it was requested and the table has it |
| Tools.UnknownTypesAddNothing | backend/src/react_agent/tools.py:260-263 | unknown types add nothing: the allowed set is the same with only the known types |
| Tools.KeptIds | backend/src/react_agent/tools.py:257-265 | the ids kept are a subsequence of `tool_ids`: all of them for `None` or `[]`, otherwise exactly those in the allowed set |
| Tools.ToolsFor | backend/src/react_agent/tools.py:254-285 | every tool returned carries an id that is in `tool_ids` and in the index, and is built from that id's item |
| Tools.BuildTools | backend/src/react_agent/tools.py:270-285 | every tool built carries an id from the filtered ids that the index knows, and it is made from that id's item |
| Tools.BuildToolsCallerIds | backend/src/react_agent/tools.py:271-276 | the ids of the tools built are exactly the filtered ids that the index knows, in order; ids missing from the index are skipped |
| Tools.MakeTool | backend/src/react_agent/tools.py:279-284 | a structured tool carries the listed item's name, description and input schema, and calls the tool id it was made for |
| Tools.GetToolsFrom | backend/src/react_agent/tools.py:254-289 | the two loops compute `ToolsFor` for the given table; every tool's id is in both `tool_ids` and `available_tools_by_name` |
| Tools.GetTools | backend/src/react_agent/tools.py:245-289 | `get_tools` with the module's service table returns `ToolsFor(ServiceMethods, ...)`; every tool's id is in both `tool_ids` and `available_tools_by_name` |
| Tools.KeptIdsAreListed | backend/src/react_agent/tools.py:257-265 | every id kept by the filter step is one of `tool_ids` |
| Tools.NoTypesKeepsEveryTool | backend/src/react_agent/tools.py:257 | with `None` or an empty list of types nothing is filtered: when every id is indexed, the tools' ids are all of `tool_ids`, in order |
| Tools.KeepAllowedAll | backend/src/react_agent/tools.py:265 | the filter keeps the ids unchanged when every id is allowed |
| Tools.RequestedTypesSelectExactly | backend/src/react_agent/tools.py:257-275 | with a non-empty list of types, an id gets a tool exactly when it is in `tool_ids`, it is indexed, and the table lists it under some requested type |
| Tools.ToolsKeepCatalogueOrder | backend/src/react_agent/tools.py:265-276 | the tools' ids are a subsequence of `tool_ids`, so their relative order is kept |
| Tools.OnlyUnknownTypesSelectNothing | backend/src/react_agent/tools.py:258-268 | requesting only unknown types yields no tools |
| Tools.KeepAllowedNone | backend/src/react_agent/tools.py:265 | filtering by the empty set keeps nothing |
| Tools.UnknownTypesIgnored | backend/src/react_agent/tools.py:259-265 | with at least one known type requested, adding unknown types does not change the tools |
| Tools.ToolsAreDistinct | backend/src/react_agent/tools.py:265-285 | no tool id is produced twice when `tool_ids` are distinct, even when several services list the same name |
| Tools.ListedToolsAllBuilt | backend/src/react_agent/tools.py:254-285 | for an index built from a listing: no kept id is skipped, no id gets two tools, and each tool's name equals its id |
| Tools.HandleAuthorizationError | backend/src/react_agent/tools.py:143-182 | the guard chain with Python's `in`, `[]`, `len` and truthiness: when it yields an interrupt the body asks for authorization, and the payload is the single `Auth` request for its URL; an escaping error is `TypeError` or `KeyError`, and a body that is not a dictionary, list or string raises `TypeError` at the first `in` |
| Tools.AuthInterrupt | backend/src/react_agent/tools.py:166-181 | the payload is an `Auth` action whose only argument `url` is the authorization URL; only `allow_accept` is set, and there is no description |
| Tools.AuthInterruptExactlyWhenRequested | backend/src/react_agent/tools.py:143-182 | the handler interrupts exactly when `missing_requirements.authorization` is a one-element list whose element has an `authorization_url`. The payload is then one `Auth` request with `args == {"url": url}`, only `allow_accept` set, and no description |
| Tools.WellShapedBodyNeverRaises | backend/src/react_agent/tools.py:150-163 | for a body shaped as a dictionary of dictionaries and lists, every guard returns or passes without raising |
| Tools.NonDictionaryBodiesRaise | backend/src/react_agent/tools.py:150-153 | a `None` body raises `TypeError` at the first `in`; so does a list that holds the key as an element, at the `[]` that follows |
| Tools.CallTool | backend/src/react_agent/tools.py:197-240 | an error raised while creating the client is raised again. A value is returned only when the user id is non-empty and the server answered the request `{tool_id, context.user_id, input = kwargs}` successfully with that value. An interrupt comes only from an API status error whose body asks for authorization, and it is then the single `Auth` request. Any other exception from the server is raised unchanged; a status error without a body is raised again; an error escaping the handler is raised; and when the handler returns without interrupting, the status error is raised again |
| Tools.FailureText | backend/src/react_agent/tools.py:224 | `response.error or "Unknown error occurred"`: the server's error when it is present and non-empty, otherwise `Unknown error occurred`; never empty |
| Tools.MissingUserRaisesBeforeCalling | backend/src/react_agent/tools.py:199-205 | a missing or empty user id raises `ValueError("Missing langgraph_auth_user_id in configuration")`, whatever the server would answer |
| Tools.CallDependsOnlyOnTheRequest | backend/src/react_agent/tools.py:210-220 | the server is asked only the request carrying `tool_id`, `context.user_id` and `input = kwargs`: two servers that answer that request alike give the same result |
| Tools.ResponseHandling | backend/src/react_agent/tools.py:220-228 | a successful response returns its value. An unsuccessful one raises `ValueError` with a message that contains the tool id and the server's error, or `Unknown error occurred` when the error is missing or empty |
| Tools.StatusErrorInterruptsOnlyForAuthorization | backend/src/react_agent/tools.py:230-235 | for an API status error with a well-shaped body, the call interrupts with the single `Auth` request exactly when the body asks for authorization; otherwise it raises the status error again |
| Py.Truthy | backend/src/react_agent/tools.py:158 | `not x`: `None` is false, a boolean is itself, an integer is true exactly when non-zero, and a sized value is true exactly when its length is non-zero |
| Py.Contains | backend/src/react_agent/tools.py:150-162 | `key in x` raises `TypeError` exactly when `x` is not a dictionary, list or string; on a dictionary it is key membership, on a list element equality with the key string, on a string substring occurrence |
| Py.GetItem | backend/src/react_agent/tools.py:153-171 | `x[key]` succeeds exactly on a dictionary holding the key and returns its entry; a dictionary without the key raises `KeyError`, anything else `TypeError` |
| Py.ItemAt | backend/src/react_agent/tools.py:161 | `x[0]` succeeds exactly on a sized non-dictionary value with the index in range, and gives a list's element or a string's one-character string; otherwise `KeyError` for a dictionary, `IndexError` out of range, `TypeError` for an unsized value |
| Py.Len | backend/src/react_agent/tools.py:158 | `len(x)` is the length of a string, list or dictionary; anything else raises `TypeError` |
| Py.IsSpaceAscii | backend/src/react_agent/utils.py:22 | the characters `strip()` removes include space, tab, newline and carriage return, and exclude letters, digits, `/` and `_` |
| Py.IsSubstringAt | backend/src/react_agent/tools.py:154 | Python's `in` on two strings holds exactly when the key occurs at some index |
| Py.StripStart | backend/src/react_agent/utils.py:22 | left strip: a suffix of the input with only whitespace removed before it, and not starting with whitespace |
| Py.StripEnd | backend/src/react_agent/utils.py:22 | right strip: a prefix of the input with only whitespace removed after it, and not ending with whitespace |
| Py.Strip | backend/src/react_agent/utils.py:22 | `str.strip()` returns a slice of the input with only whitespace outside it and with no whitespace at either end |
| Py.StripIdempotent | backend/src/react_agent/utils.py:22 | stripping twice is stripping once |
| Py.Concat | backend/src/react_agent/utils.py:22 | `"".join(parts)` is empty exactly when every part is, and a single part comes back as it is |
| Py.JoinWith | backend/src/react_agent/utils.py:119 | `sep.join(parts)` is empty for no parts, is the part itself for one part, and otherwise starts with the first part |
| Py.JoinWithEmptyIsConcat | backend/src/react_agent/utils.py:22 | joining with the empty separator is concatenation |
| Py.IndexOf | backend/src/react_agent/utils.py:32 | finding a character gives nothing exactly when it is absent, otherwise the index of its first occurrence |
| Py.IndexOfAfterPrefix | backend/src/react_agent/utils.py:32 | in `a + c + b` with no `c` in `a`, the first `c` is at index `len(a)` |
| Py.SplitJoin | backend/src/react_agent/utils.py:119 | splitting a `sep.join` at `sep` gives the parts back when no part contains the separator |
| Utils.PartText | backend/src/react_agent/utils.py:21 | a string part contributes itself. A block fails (the `TypeError` of `"".join`) exactly when its `text` is a truthy non-string; otherwise it contributes its `text` string when that is present and non-empty, and `""` when it is missing or falsy |
| Utils.PartTexts | backend/src/react_agent/utils.py:21 | the list comprehension yields one text per part, in order. It fails exactly when some block's `text` is a truthy non-string, which makes `"".join` raise |
| Utils.GetMessageText | backend/src/react_agent/utils.py:13-22 | string content is returned as it is; only list content can fail, and then with `TypeError` |
| Utils.MessageTextOfStringOrDict | backend/src/react_agent/utils.py:16-19 | string content comes back unchanged, with no stripping; dictionary content gives its `text` entry, or `""` when that is absent |
| Utils.MessageTextOfListFails | backend/src/react_agent/utils.py:20-22 | list content raises exactly when some block's `text` is a truthy non-string |
| Utils.MessageTextOfList | backend/src/react_agent/utils.py:20-22 | otherwise, list content gives the concatenation of the parts' texts with the surrounding whitespace stripped |
| Utils.MessageTextExample | backend/src/react_agent/utils.py:21-22 | `[" a", {"text": "b\n"}, {"type": "image"}]` gives `"ab"`: a block without text contributes `""`, and the joined text is stripped |
| Utils.StripExample | backend/src/react_agent/utils.py:22 | `" ab\n".strip()` is `"ab"` |
| Utils.LoadChatModel | backend/src/react_agent/utils.py:32 | a name with no `/` fails with the unpacking `ValueError`. Otherwise the name is `provider + "/" + model` and the provider has no `/` |
| Utils.LoadChatModelInvertsJoin | backend/src/react_agent/utils.py:30-32 | the provider is the text before the first `/` and the model is everything after it, including any further `/` |
| Utils.State.constructor | backend/src/react_agent/utils.py:41-44 | a store built from `None` starts empty; one built from a dictionary holds exactly that dictionary |
| Utils.NoAttributeMessage | backend/src/react_agent/utils.py:53-54 | the message starts with `'State' object has no attribute '`, ends with a quote, and holds exactly the key in between |
| Utils.NoAttributeMessageNamesTheKey | backend/src/react_agent/utils.py:53-54 | different keys give different messages |
| Utils.State.SetAttr | backend/src/react_agent/utils.py:46-47 | setting binds the key to the value and leaves every other key as it was |
| Utils.State.GetAttr | backend/src/react_agent/utils.py:49-54 | getting returns the bound value, or raises `AttributeError("'State' object has no attribute '<key>'")` |
| Utils.State.DelAttr | backend/src/react_agent/utils.py:56-57 | deleting removes exactly the key; a missing key raises `KeyError` and changes nothing |
| Utils.StateRoundTrip | backend/src/react_agent/utils.py:41-57 | on a fresh store: a get after a set returns the value, another key survives a deletion, a deleted key reads as missing, and a second deletion raises `KeyError` |
| Utils.ZoneOffsets | backend/src/react_agent/utils.py:73-102 | the offset dictionary built in place holds every zone, mapped to its offset for the month |
| Utils.ZoneOrderListsEveryZone | backend/src/react_agent/utils.py:73-83 | the listing order has nine entries and holds every zone of the table exactly once |
| Utils.ExpectedOffset | backend/src/react_agent/utils.py:73-102 | each zone's offset is the one the table is written with, or one hour more; UTC, GMT and JST are never moved |
| Utils.IsDstUs | backend/src/react_agent/utils.py:87 | of the calendar months, only December, January and February are on US standard time |
| Utils.IsDstEu | backend/src/react_agent/utils.py:88 | November to February are on European standard time |
| Utils.IsDstAu | backend/src/react_agent/utils.py:89 | May to September are on Australian standard time |
| Utils.StandardOffset | backend/src/react_agent/utils.py:73-83 | the written offsets are west of UTC exactly for the four American zones, and lie between -8 and 10 |
| Utils.StandardOffsetIsWinterOffset | backend/src/react_agent/utils.py:73-102 | the written offset is the zone's winter offset: January's for the northern zones, July's for Australia |
| Utils.OffsetsFixedAndSpaced | backend/src/react_agent/utils.py:73-102 | UTC and GMT are 0 and JST is 9 in every month. ET, CT, MT and PT stay one hour apart. ET is -5, plus 1 exactly when `3 <= m <= 11`. CET is 1, plus 1 exactly when `3 <= m <= 10`. AET is 10, plus 1 exactly when `m <= 4` or `m >= 10` |
| Utils.ZoneLineAsWritten | backend/src/react_agent/utils.py:110-112 | as written: the line is the zone's key, `": "` and the formatted UTC reading, whatever the offset |
| Utils.ZoneLine | backend/src/react_agent/utils.py:110-112 | corrected: the line is the zone's key, `": "` and the formatted reading moved by the offset in hours |
| Utils.AsWrittenIgnoresOffset | backend/src/react_agent/utils.py:110-112 | as written, the zone line does not depend on the zone's offset |
| Utils.AsWrittenEasternShowsUtc | backend/src/react_agent/utils.py:110-112 | at midnight UTC in January, the line as written shows the Eastern zone at `00:00:00`; the corrected line shows `19:00:00` on the previous day |
| Utils.ZoneLinesDifferWithOffset | backend/src/react_agent/utils.py:110-112 | with the correction, two offsets give different lines whenever the formatter tells the two moved readings apart |
| Utils.ClockLines | backend/src/react_agent/utils.py:109-113 | as written: one line per zone of the table, in table order; each is the zone's key, `": "` and the UTC reading formatted, whatever the zone's offset |
| Utils.CorrectedClockLines | backend/src/react_agent/utils.py:109-113 | corrected: one line per zone, in table order; each is the zone's key, `": "` and the reading moved by the zone's offset for the month |
| Utils.FormattedTimes | backend/src/react_agent/utils.py:63-119 | as written: the loop over the offset table yields the nine lines of `ClockLines`, in table order, joined by `"\n"` |
| Utils.FormattedTimesCorrected | backend/src/react_agent/utils.py:63-119 | the same loop with each zone's local reading: the nine lines of `CorrectedClockLines` joined by `"\n"` |
| Utils.AsWrittenEasternLineDiffers | backend/src/react_agent/utils.py:110-112 | at midnight UTC in January the Eastern line the code writes differs from the corrected one |
| Utils.AsWrittenTextDiffers | backend/src/react_agent/utils.py:109-119 | at midnight UTC in January the whole text the code returns differs from the corrected text |
| Utils.ZoneNameHasNoNewline | backend/src/react_agent/utils.py:73-83 | no zone key followed by `": "` contains a newline |
| Utils.ClockLineHasNoNewline | backend/src/react_agent/utils.py:111-113 | a clock line contains no newline when its formatted reading contains none |
| Utils.ClockLinesHaveNoNewline | backend/src/react_agent/utils.py:109-113 | no clock line contains a newline when the formatter never prints one |
| Utils.ClockLineLabels | backend/src/react_agent/utils.py:109-113 | the k-th line starts with the k-th zone's key followed by `": "` |
| Utils.ClockTextHasOneLinePerZone | backend/src/react_agent/utils.py:119 | when the formatter prints no newline, the text splits at `"\n"` into exactly the nine clock lines |

## Left out

- `get_oxp_client` is left out. It reads environment variables, opens a network client and runs a health check. Only the error it can raise stays, as the `clientError` input of `CallTool`.
- `client.tools.list` and `client.tools.call` are network calls. They are inputs: the listing is a sequence of items, and the call is a function from request to outcome. So the model does not capture the server calling the same request twice with different answers.
- The `lru_cache` on `_get_available_tools` and `load_chat_model` gives no behaviour to verify, so it is left out.
- `StructuredTool` and `init_chat_model` are library code. A structured tool is a record of the item's name, description and input schema plus the tool id its caller uses. `load_chat_model` returns the arguments `init_chat_model` would receive. The `except Exception` around tool construction (tools.py:286-287) cannot fire in the model, because building a record cannot fail.
- `create_tool_caller` returns a closure over `tool_id`. The model writes that closure as `CallTool(toolId, ...)`, and a structured tool records the captured id in `callerToolId`.
- LangGraph's `interrupt` is a returned value. When the graph is resumed, LangGraph runs the interrupted node again from the start, so `call_tool` sends its request again. That second run is not modelled.
- `get_config` is left out. The user id is an `Option<string>`. A missing `configurable` key and a truthy non-string user id are not modelled.
- `hasattr(e, "body")` is read as follows: `StatusError(None)` means the exception has no `body` attribute, and `StatusError(Some(JNone))` means its body is `None`. In the second case the first `in` raises `TypeError`, as in the source.
- `datetime.now`, `timezone` and `strftime` are left out as a clock and a formatting library. The reading is an integer number of seconds, the month is an integer input, and the formatter is a function passed in.
- The `user_timezone` parameter of `get_formatted_times` is unused by the source, so it is left out.
- `Json` has no floating-point numbers. Dictionary keys are strings, and so are `State`'s attribute names.
- `State` is left out in part:
  - The source stores the caller's dictionary itself, so later changes through either reference are shared. The model copies the map.
  - The class name in the error message is always `State`; subclasses are not modelled.
  - Attribute names reaching the object itself, such as `_state`, are not modelled.
- The model has list parts that are strings or dictionaries, as the message type allows. A part of any other type (where `c.get` would raise `AttributeError`) is not modelled.
- Logging is left out everywhere.
- `make_graph` in `graph.py` is wiring, and `prompts.py` is a constant string. Both are left out.
- Utils.ClockTextHasOneLinePerZone: requires that the formatter never prints a newline, which `strftime` with `%Y-%m-%d %H:%M:%S` guarantees but the model does not.

## Findings

| source | as written | input that shows it | evidently intended | confidence | as-written member | corrected member |
|---|---|---|---|---|---|---|
| backend/src/react_agent/utils.py:110-112 | `utc_now.replace(tzinfo=timezone(timedelta(hours=offset)))` keeps the UTC clock fields and only attaches a new zone; the format has no `%z`, so every line prints the UTC reading | 1970-01-01 00:00:00 UTC, January: the Eastern line reads `00:00:00` | each line shows its zone's local reading, `utc_now.astimezone(...)` (the UTC reading moved by the offset): Eastern `1969-12-31 19:00:00` | high (not executed) | Utils.AsWrittenIgnoresOffset | Utils.ZoneLine |

`Utils.ZoneLineAsWritten` models the line as written, and `Utils.AsWrittenEasternShowsUtc` gives the concrete case for both versions. `Utils.ClockLines` and `Utils.FormattedTimes` build the text as written, and `Utils.AsWrittenTextDiffers` shows that the whole text differs at that input. `Utils.ZoneLine` is the corrected line, and `Utils.CorrectedClockLines` and `Utils.FormattedTimesCorrected` build the corrected text. The lemmas about labels, newlines and line count hold for any readings, so they cover both texts.
